/** The physics integrator of src/physics.cpp: a semi-implicit Euler step over a
    `Body` and a position, under a process-wide gravity constant.
    The source's static `s_gravity` becomes a field of a `Physics` object, and the
    `float&` position parameters become an input value and an output value each.
    `float` is modelled as `real`: rounding is abstracted away. */
module Physics {

  /** Gravity in pixels per second squared (downward) before any `setGravity`. */
  const DefaultGravity: real := 1200.0

  /** Milliseconds to seconds: a thousandth of the delta, of the same sign. */
  function Seconds(dtMs: real): (dt: real)
    ensures dt * 1000.0 == dtMs
    ensures dtMs >= 0.0 ==> dt >= 0.0
  {
    dtMs * 0.001
  }

  /** The velocity record of a moving entity, updated in place by `Physics.Step`. */
  class Body {
    var vx: real
    var vy: real
    var affectedByGravity: bool

    /** The default member initialisers: at rest, not affected by gravity. */
    constructor ()
      ensures vx == 0.0 && vy == 0.0 && !affectedByGravity
    {
      vx, vy := 0.0, 0.0;
      affectedByGravity := false;
    }
  }

  /** Everything a step reads and writes: the position and the body's fields. */
  datatype Kinematics = Kinematics(x: real, y: real, vx: real, vy: real, affectedByGravity: bool)

  /** One step of `dtMs` milliseconds under gravity `g`: gravity first feeds the
      vertical velocity (when the body is affected), and the position then moves
      by the updated velocity. The horizontal velocity and the flag never change,
      and both coordinates move by the step's final velocity. */
  function Advance(g: real, dtMs: real, k: Kinematics): (r: Kinematics)
    ensures r.vx == k.vx && r.affectedByGravity == k.affectedByGravity
    ensures r.x == k.x + r.vx * Seconds(dtMs) && r.y == k.y + r.vy * Seconds(dtMs)
    ensures !k.affectedByGravity ==> r.vy == k.vy
  {
    var dt := Seconds(dtMs);
    var vy := if k.affectedByGravity then k.vy + g * dt else k.vy;
    k.(x := k.x + k.vx * dt, y := k.y + vy * dt, vy := vy)
  }

  /** `n` consecutive steps of the same delta, as a fixed-rate frame loop performs them. */
  function Simulate(g: real, dtMs: real, k: Kinematics, n: nat): Kinematics
  {
    if n == 0 then k else Advance(g, dtMs, Simulate(g, dtMs, k, n - 1))
  }

  class Physics {
    var gravity: real

    /** The static initialiser of `s_gravity`. */
    constructor ()
      ensures gravity == DefaultGravity
    {
      gravity := DefaultGravity;
    }

    /** `setGravity(g)`: later steps use `g`. */
    method SetGravity(g: real)
      modifies this
      ensures gravity == g
    {
      gravity := g;
    }

    /** `gravity()`: the value most recently set, or the default. */
    method Gravity() returns (g: real)
      ensures g == gravity
    {
      g := gravity;
    }

    /** `step(dtMs, x, y, body)`: the body's new fields and the new position are one
        `Advance` of the old ones under the current gravity; only the body changes
        in the heap, so the gravity constant is untouched. */
    method Step(dtMs: real, x: real, y: real, body: Body) returns (x': real, y': real)
      modifies body
      ensures Kinematics(x', y', body.vx, body.vy, body.affectedByGravity) ==
              Advance(gravity, dtMs, Kinematics(x, y, old(body.vx), old(body.vy), old(body.affectedByGravity)))
      ensures body.vx == old(body.vx) && body.affectedByGravity == old(body.affectedByGravity)
    {
      var dt := dtMs * 0.001;
      if body.affectedByGravity {
        body.vy := body.vy + gravity * dt;
      }
      x' := x + body.vx * dt;
      y' := y + body.vy * dt;
    }
  }

  /** A body not affected by gravity moves in a straight line at constant velocity. */
  lemma StepWithoutGravity(g: real, dtMs: real, k: Kinematics)
    requires !k.affectedByGravity
    ensures Advance(g, dtMs, k) ==
            k.(x := k.x + k.vx * Seconds(dtMs), y := k.y + k.vy * Seconds(dtMs))
  {
  }

  /** Semi-implicit Euler: the vertical displacement uses the velocity already
      increased by this step's gravity, so it carries a full `g * dt * dt` term. */
  lemma StepWithGravity(g: real, dtMs: real, k: Kinematics)
    requires k.affectedByGravity
    ensures Advance(g, dtMs, k).vy == k.vy + g * Seconds(dtMs)
    ensures Advance(g, dtMs, k).y == k.y + Advance(g, dtMs, k).vy * Seconds(dtMs)
    ensures Advance(g, dtMs, k).y == k.y + k.vy * Seconds(dtMs) + g * Seconds(dtMs) * Seconds(dtMs)
  {
  }

  /** With downward gravity and a non-negative delta the vertical velocity never decreases. */
  lemma StepVelocityNeverDecreases(g: real, dtMs: real, k: Kinematics)
    requires g >= 0.0 && dtMs >= 0.0
    ensures Advance(g, dtMs, k).vy >= k.vy
  {
  }

  /** A zero delta leaves the position and the body unchanged. */
  lemma ZeroDeltaIsIdentity(g: real, k: Kinematics)
    ensures Advance(g, 0.0, k) == k
  {
  }

  /** Over `n` steps the horizontal velocity and the flag stay fixed, and the
      vertical velocity gains `g * dt` per step exactly when the body is affected. */
  lemma {:induction false} SimulateVelocity(g: real, dtMs: real, k: Kinematics, n: nat)
    ensures Simulate(g, dtMs, k, n).vx == k.vx
    ensures Simulate(g, dtMs, k, n).affectedByGravity == k.affectedByGravity
    ensures Simulate(g, dtMs, k, n).vy ==
            if k.affectedByGravity then k.vy + (n as real) * g * Seconds(dtMs) else k.vy
  {
    if n > 0 {
      SimulateVelocity(g, dtMs, k, n - 1);
    }
  }

  /** `0 + 1 + ... + n`, that is `n * (n + 1) / 2`: the number of gravity
      increments a position has integrated after `n` semi-implicit steps. */
  function Triangle(n: nat): (t: nat)
    ensures 2 * t == n * (n + 1)
  {
    if n == 0 then 0 else Triangle(n - 1) + n
  }

  /** Closed form of the horizontal position after `n` steps: uniform motion. */
  lemma {:induction false} SimulateHorizontal(g: real, dtMs: real, k: Kinematics, n: nat)
    ensures Simulate(g, dtMs, k, n).x == k.x + (n as real) * k.vx * Seconds(dtMs)
  {
    if n > 0 {
      var dt := Seconds(dtMs);
      SimulateHorizontal(g, dtMs, k, n - 1);
      SimulateVelocity(g, dtMs, k, n - 1);
      assert ((n - 1) as real) * k.vx * dt + k.vx * dt == (n as real) * k.vx * dt;
    }
  }

  /** The vertical closed form after `n` steps, on plain numbers: `steps` stands
      for `n`, `tri` for `1 + 2 + ... + n`. */
  function VerticalClosedForm(y0: real, vy: real, g: real, dt: real, affected: bool, steps: real, tri: real): real
  {
    y0 + steps * vy * dt + (if affected then g * dt * dt * tri else 0.0)
  }

  /** One step of the vertical closed form: the position after `n - 1` steps plus
      this step's displacement, by the velocity after `n` steps. */
  lemma AccumulateStep(y0: real, vy: real, g: real, dt: real, affected: bool,
                       steps: real, prevTri: real, tri: real, prevY: real, curVy: real, curY: real)
    requires tri == prevTri + steps
    requires prevY == VerticalClosedForm(y0, vy, g, dt, affected, steps - 1.0, prevTri)
    requires curVy == if affected then vy + steps * g * dt else vy
    requires curY == prevY + curVy * dt
    ensures curY == VerticalClosedForm(y0, vy, g, dt, affected, steps, tri)
  {
  }

  /** Closed form of the vertical position after `n` steps: uniform motion plus,
      with gravity, `g * dt * dt` times `1 + 2 + ... + n`, because each step moves
      by the velocity it has just updated (an explicit step would sum only
      `1 + ... + (n - 1)`). */
  lemma {:induction false} SimulateVertical(g: real, dtMs: real, k: Kinematics, n: nat)
    ensures Simulate(g, dtMs, k, n).y ==
            VerticalClosedForm(k.y, k.vy, g, Seconds(dtMs), k.affectedByGravity, n as real, Triangle(n) as real)
  {
    var dt := Seconds(dtMs);
    if n > 0 {
      var prev := Simulate(g, dtMs, k, n - 1);
      var cur := Simulate(g, dtMs, k, n);
      var steps, prevTri, tri := n as real, Triangle(n - 1) as real, Triangle(n) as real;
      assert tri == prevTri + steps;
      assert prev.y == VerticalClosedForm(k.y, k.vy, g, dt, k.affectedByGravity, steps - 1.0, prevTri) by {
        SimulateVertical(g, dtMs, k, n - 1);
        assert ((n - 1) as real) == steps - 1.0;
      }
      assert cur.vy == if k.affectedByGravity then k.vy + steps * g * dt else k.vy by {
        SimulateVelocity(g, dtMs, k, n);
      }
      assert cur.y == prev.y + cur.vy * dt;
      AccumulateStep(k.y, k.vy, g, dt, k.affectedByGravity, steps, prevTri, tri, prev.y, cur.vy, cur.y);
    } else {
      assert 0.0 * k.vy * dt == 0.0;
      assert g * dt * dt * 0.0 == 0.0;
    }
  }

  /** Tick over tick, with downward gravity and a non-negative delta, the vertical
      velocity is non-decreasing. */
  lemma SimulateVelocityMonotone(g: real, dtMs: real, k: Kinematics, i: nat, j: nat)
    requires g >= 0.0 && dtMs >= 0.0 && i <= j
    ensures Simulate(g, dtMs, k, i).vy <= Simulate(g, dtMs, k, j).vy
  {
  }

  /** A caller that sets the gravity and reads it back gets the value it set. */
  method SetThenReadGravity(p: Physics, g: real) returns (r: real)
    modifies p
    ensures r == g
  {
    p.SetGravity(g);
    r := p.Gravity();
  }
}
