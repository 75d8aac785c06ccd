/**
 * The physics of `Actor` (js/engine/actor.js): `velocity_impulse`,
 * `acceleration` with its choice of animation row, and the periodic
 * `update_velocity` tick.
 *
 * The `setInterval` timer is the flag `active` plus a count of the timers
 * ever started; a tick of the model is one call of `update_velocity`, which
 * the engine makes only while the timer runs.  The sprite element, its
 * styling and the animation objects are left out: an animation request is
 * recorded as the row and speed passed to `set_animation`.
 */
module Kinematics {
  import opened Wrappers
  import opened Geometry

  /** `ACTOR_VELOCITY_SLEEP`: below this on both axes the actor stops. */
  const VelocitySleep: real := 0.01

  const Zero: Vec2 := Vec2(0.0, 0.0)

  /** The last `set_animation(row, Infinity, speed)` request. */
  datatype Animation = Animation(row: int, speed: real)

  datatype Actor = Actor(pos: Vec2, vel: Vec2, acc: Vec2, active: bool, timers: nat, anim: Animation)

  function Add(a: Vec2, b: Vec2): Vec2 {
    Vec2(a.x + b.x, a.y + b.y)
  }

  function Scale(c: real, v: Vec2): Vec2 {
    Vec2(c * v.x, c * v.y)
  }

  /** Both components within the sleep threshold. */
  predicate Resting(v: Vec2) {
    Abs(v.x) <= VelocitySleep && Abs(v.y) <= VelocitySleep
  }

  /** Starts the update timer unless one is running. */
  function EnsureTimer(a: Actor): (r: Actor)
    ensures r.active
    ensures r.timers == if a.active then a.timers else a.timers + 1
    ensures r.(active := a.active, timers := a.timers) == a
  {
    if a.active then a else a.(active := true, timers := a.timers + 1)
  }

  // ---------------------------------------------------------------------------
  // velocity_impulse
  // ---------------------------------------------------------------------------

  /** Adds `(x, y)` to the velocity once and makes sure the update timer runs. */
  function Impulse(a: Actor, x: real, y: real): (r: Actor)
    ensures r.vel == Vec2(a.vel.x + x, a.vel.y + y)
    ensures r.active
    ensures r.timers <= a.timers + 1 && (a.active ==> r.timers == a.timers)
    ensures r.pos == a.pos && r.acc == a.acc && r.anim == a.anim
  {
    EnsureTimer(a.(vel := Add(a.vel, Vec2(x, y))))
  }

  /** Two impulses add up, and together start at most one timer. */
  lemma ImpulseTwice(a: Actor, x1: real, y1: real, x2: real, y2: real)
    ensures Impulse(Impulse(a, x1, y1), x2, y2) == Impulse(a, x1 + x2, y1 + y2)
    ensures Impulse(Impulse(a, x1, y1), x2, y2).timers <= a.timers + 1
  {
  }

  // ---------------------------------------------------------------------------
  // acceleration
  // ---------------------------------------------------------------------------

  /**
   * The animation request of `acceleration`: the first non-zero among the
   * new x, new y, old x and old y components picks the row (right 1, left 3,
   * down 2, up 0); the new components animate at their magnitude, the old
   * ones at the idle speed; all zero leaves the animation as it was.
   */
  function ChooseAnimation(acc: Vec2, last: Vec2, idle: real, current: Animation): (r: Animation)
    ensures acc.x != 0.0 ==> r.row == (if acc.x > 0.0 then 1 else 3) && r.speed == Abs(acc.x)
    ensures acc.x == 0.0 && acc.y != 0.0 ==> r.row == (if acc.y > 0.0 then 2 else 0) && r.speed == Abs(acc.y)
    ensures acc == Zero && last.x != 0.0 ==> r == Animation(if last.x > 0.0 then 1 else 3, idle)
    ensures acc == Zero && last.x == 0.0 && last.y != 0.0 ==> r == Animation(if last.y > 0.0 then 2 else 0, idle)
    ensures acc == Zero && last == Zero ==> r == current
  {
    if acc.x > 0.0 then Animation(1, acc.x)
    else if acc.x < 0.0 then Animation(3, -acc.x)
    else if acc.y > 0.0 then Animation(2, acc.y)
    else if acc.y < 0.0 then Animation(0, -acc.y)
    else if last.x > 0.0 then Animation(1, idle)
    else if last.x < 0.0 then Animation(3, idle)
    else if last.y > 0.0 then Animation(2, idle)
    else if last.y < 0.0 then Animation(0, idle)
    else current
  }

  /**
   * `acceleration(x, y)`: an argument that is NaN (`None`) leaves its
   * component as it was; the timer is started if needed and the animation
   * follows the new acceleration, or the old one when the new is zero.
   */
  function Accelerate(a: Actor, x: Option<real>, y: Option<real>, idle: real): (r: Actor)
    ensures r.acc.x == (if x.Some? then x.value else a.acc.x)
    ensures r.acc.y == (if y.Some? then y.value else a.acc.y)
    ensures r.active && (a.active ==> r.timers == a.timers) && r.timers <= a.timers + 1
    ensures r.pos == a.pos && r.vel == a.vel
    ensures r.anim == ChooseAnimation(r.acc, a.acc, idle, a.anim)
  {
    var acc := Vec2(x.GetOr(a.acc.x), y.GetOr(a.acc.y));
    EnsureTimer(a.(acc := acc, anim := ChooseAnimation(acc, a.acc, idle, a.anim)))
  }

  /**
   * When the acceleration lies on one axis, the animation row is the
   * direction `vec2ang` (js/engine/init.js) gives for it; when it is zero
   * and the previous one lay on one axis, the row is that direction.
   */
  lemma AnimationRowIsHeading(acc: Vec2, last: Vec2, idle: real, current: Animation)
    ensures (acc.x == 0.0) != (acc.y == 0.0) ==>
              Some(ChooseAnimation(acc, last, idle, current).row) == AngleOfDominant(acc)
    ensures acc == Zero && (last.x == 0.0) != (last.y == 0.0) ==>
              Some(ChooseAnimation(acc, last, idle, current).row) == AngleOfDominant(last)
  {
    DominantOnAxis(acc);
    DominantOnAxis(last);
  }

  // ---------------------------------------------------------------------------
  // update_velocity
  // ---------------------------------------------------------------------------

  /** The velocity after friction has taken its share of the transfer. */
  function Damp(v: real, friction: real): real {
    v - (v / 2.0) * friction
  }

  /**
   * One call of `update_velocity`: add the acceleration, move by half the
   * velocity, lose that half times the friction, and go to sleep with the
   * velocity zeroed when both components are within the threshold.
   */
  function Tick(a: Actor, friction: real): (r: Actor)
    ensures r.pos == Add(a.pos, Scale(0.5, Add(a.vel, a.acc)))
    ensures r.active <==> a.active && !Resting(Scale(1.0 - friction / 2.0, Add(a.vel, a.acc)))
    ensures r.vel == (if Resting(Scale(1.0 - friction / 2.0, Add(a.vel, a.acc))) then Zero
                      else Scale(1.0 - friction / 2.0, Add(a.vel, a.acc)))
    ensures r.acc == a.acc && r.timers == a.timers && r.anim == a.anim
  {
    var v := Add(a.vel, a.acc);
    var tx, ty := v.x / 2.0, v.y / 2.0;
    var pos := Vec2(a.pos.x + tx, a.pos.y + ty);
    var vel := Vec2(Damp(v.x, friction), Damp(v.y, friction));
    DampIsScale(v.x, friction);
    DampIsScale(v.y, friction);
    if Abs(vel.x) <= VelocitySleep && Abs(vel.y) <= VelocitySleep then
      a.(pos := pos, vel := Zero, active := false)
    else
      a.(pos := pos, vel := vel)
  }

  lemma DampIsScale(v: real, friction: real)
    ensures Damp(v, friction) == v * (1.0 - friction / 2.0)
  {
  }

  /** The engine ticks the actor only while its timer runs. */
  function Step(a: Actor, friction: real): Actor {
    if a.active then Tick(a, friction) else a
  }

  function Run(a: Actor, friction: real, n: nat): Actor
    decreases n
  {
    if n == 0 then a else Run(Step(a, friction), friction, n - 1)
  }

  /**
   * For friction in [0, 2] the transfer never exceeds the velocity: the
   * damped velocity keeps the sign and does not grow.  For any larger
   * friction a non-zero velocity reverses.
   */
  lemma FrictionDamping(v: real, friction: real)
    ensures 0.0 <= friction <= 2.0 ==> Abs(Damp(v, friction)) <= Abs(v)
    ensures 0.0 <= friction <= 2.0 ==> (v >= 0.0 ==> Damp(v, friction) >= 0.0) && (v <= 0.0 ==> Damp(v, friction) <= 0.0)
    ensures friction > 2.0 && v > 0.0 ==> Damp(v, friction) < 0.0
    ensures friction > 2.0 && v < 0.0 ==> Damp(v, friction) > 0.0
  {
    var c := 1.0 - friction / 2.0;
    assert Damp(v, friction) == v * c;
    if 0.0 <= friction <= 2.0 {
      MulShrinks(v, c);
    } else if friction > 2.0 {
      if v > 0.0 {
        MulOppositeSigns(v, c);
      } else if v < 0.0 {
        MulOppositeSigns(-v, c);
        assert v * c == -((-v) * c);
      }
    }
  }

  lemma MulOppositeSigns(a: real, b: real)
    requires a > 0.0 && b < 0.0
    ensures a * b < 0.0
  {
  }

  lemma MulShrinks(v: real, c: real)
    requires 0.0 <= c <= 1.0
    ensures Abs(v * c) <= Abs(v)
    ensures v >= 0.0 ==> v * c >= 0.0
    ensures v <= 0.0 ==> v * c <= 0.0
  {
    assert v - v * c == v * (1.0 - c);
    if v >= 0.0 {
      MulNonNegative(v, c);
      MulNonNegative(v, 1.0 - c);
    } else {
      MulNonNegative(-v, c);
      MulNonNegative(-v, 1.0 - c);
    }
  }

  lemma MulNonNegative(a: real, b: real)
    requires a >= 0.0 && b >= 0.0
    ensures a * b >= 0.0
  {
  }

  /**
   * A standing actor whose acceleration is within the threshold on both
   * axes is put to sleep by its first tick, although the acceleration is
   * still set: a slow walk stops its own updates.
   */
  lemma SlowWalkSleeps(a: Actor, friction: real)
    requires a.vel == Zero && Resting(a.acc)
    requires 0.0 <= friction <= 2.0
    ensures !Tick(a, friction).active && Tick(a, friction).vel == Zero
  {
    DampedRests(a.acc, 1.0 - friction / 2.0);
    assert Add(a.vel, a.acc) == a.acc;
  }

  lemma DampedRests(v: Vec2, c: real)
    requires Resting(v) && 0.0 <= c <= 1.0
    ensures Resting(Scale(c, v))
  {
    MulShrinks(v.x, c);
    MulShrinks(v.y, c);
  }

  // ---------------------------------------------------------------------------
  // Without acceleration, movement dies out
  // ---------------------------------------------------------------------------

  /** The taxicab size of a velocity. */
  function Speed(v: Vec2): real {
    Abs(v.x) + Abs(v.y)
  }

  /** The factor by which friction shrinks the speed each tick. */
  function Shrink(friction: real): real {
    Abs(1.0 - friction / 2.0)
  }

  /** The least amount by which the speed drops on a tick that does not end in sleep. */
  function Margin(friction: real): real {
    (1.0 - Shrink(friction)) * VelocitySleep
  }

  lemma AbsScale(c: real, r: real)
    ensures Abs(c * r) == Abs(c) * Abs(r)
  {
  }

  /** The arithmetic of one shrinking step: from speed `s` to `q * s` above the threshold. */
  lemma ShrinkStep(s: real, q: real)
    requires 0.0 <= q < 1.0
    requires q * s > VelocitySleep
    ensures q * s <= s - (1.0 - q) * VelocitySleep
  {
    assert s > 0.0 by {
      if s <= 0.0 {
        MulNonNegative(q, -s);
      }
    }
    MulNonNegative(1.0 - q, s - q * s);
    MulNonNegative(1.0 - q, q * s - VelocitySleep);
    assert s - q * s == (1.0 - q) * s;
  }

  lemma SpeedScales(v: Vec2, c: real)
    ensures Speed(Scale(c, v)) == Abs(c) * Speed(v)
  {
    AbsScale(c, v.x);
    AbsScale(c, v.y);
  }

  /** Scaling by a factor of size below 1 to a speed above the threshold loses at least the margin. */
  lemma ScaledSpeedDrops(v: Vec2, c: real)
    requires -1.0 < c < 1.0
    requires !Resting(Scale(c, v))
    ensures Speed(Scale(c, v)) <= Speed(v) - (1.0 - Abs(c)) * VelocitySleep
  {
    SpeedScales(v, c);
    ShrinkStep(Speed(v), Abs(c));
  }

  /** A tick without acceleration that keeps the actor awake lowers its speed by at least the margin. */
  lemma TickLowersSpeed(a: Actor, friction: real)
    requires a.acc == Zero && 0.0 < friction < 4.0
    requires Tick(a, friction).active
    ensures Speed(Tick(a, friction).vel) <= Speed(a.vel) - Margin(friction)
  {
    var c := 1.0 - friction / 2.0;
    assert Add(a.vel, a.acc) == a.vel;
    ScaledSpeedDrops(a.vel, c);
  }

  lemma RunStep(a: Actor, friction: real, n: nat)
    ensures Run(a, friction, n + 1) == Run(Step(a, friction), friction, n)
  {
  }

  /** An asleep actor stays as it is. */
  lemma {:induction false} AsleepStays(a: Actor, friction: real, n: nat)
    requires !a.active
    ensures Run(a, friction, n) == a
    decreases n
  {
    if n > 0 {
      AsleepStays(a, friction, n - 1);
    }
  }

  /** What one engine step does to an actor without acceleration. */
  lemma StepWithoutAcceleration(a: Actor, friction: real)
    requires a.acc == Zero && 0.0 < friction < 4.0 && a.active
    ensures Step(a, friction).acc == Zero
    ensures !Step(a, friction).active ==> Step(a, friction).vel == Zero
    ensures Step(a, friction).active ==> Speed(Step(a, friction).vel) <= Speed(a.vel) - Margin(friction)
  {
    if Tick(a, friction).active {
      TickLowersSpeed(a, friction);
    }
  }

  /** `n` margins of `m`, added one per step. */
  function Budget(n: nat, m: real): real {
    if n == 0 then 0.0 else Budget(n - 1, m) + m
  }

  lemma {:induction false} BudgetIsProduct(n: nat, m: real)
    ensures Budget(n, m) == n as real * m
  {
    if n > 0 {
      BudgetIsProduct(n - 1, m);
      assert n as real * m == (n - 1) as real * m + m;
    }
  }

  /**
   * After n engine steps without acceleration an actor that is still awake
   * has lost at least n margins of speed.
   */
  lemma {:induction false} RunLowersSpeed(a: Actor, friction: real, n: nat)
    requires a.acc == Zero && 0.0 < friction < 4.0
    ensures Run(a, friction, n).active ==> Speed(Run(a, friction, n).vel) <= Speed(a.vel) - Budget(n, Margin(friction))
    decreases n
  {
    if n > 0 {
      if !a.active {
        AsleepStays(a, friction, n);
      } else {
        var b := Step(a, friction);
        StepWithoutAcceleration(a, friction);
        RunStep(a, friction, n - 1);
        if !b.active {
          AsleepStays(b, friction, n - 1);
        } else {
          RunLowersSpeed(b, friction, n - 1);
        }
      }
    }
  }

  /** An actor that was moving and has gone to sleep within n steps without acceleration is at rest. */
  lemma {:induction false} RunRestsAtZero(a: Actor, friction: real, n: nat)
    requires a.acc == Zero && 0.0 < friction < 4.0
    ensures a.active && !Run(a, friction, n).active ==> Run(a, friction, n).vel == Zero
    decreases n
  {
    if n > 0 && a.active {
      var b := Step(a, friction);
      StepWithoutAcceleration(a, friction);
      RunStep(a, friction, n - 1);
      if b.active {
        RunRestsAtZero(b, friction, n - 1);
      } else {
        AsleepStays(b, friction, n - 1);
      }
    }
  }

  /** A count of margins that covers the speed `s`. */
  function Steps(s: real, m: real): (k: nat)
    requires s >= 0.0 && m > 0.0
    ensures s <= k as real * m
  {
    var k := (s / m).Floor + 1;
    assert s / m < k as real;
    assert s == (s / m) * m;
    MulNonNegative(k as real - s / m, m);
    k
  }

  /**
   * With no acceleration and friction strictly between 0 and 4, every
   * actor's timer stops after finitely many ticks, and an actor that was
   * moving ends at rest with zero velocity.
   */
  lemma SleepsEventually(a: Actor, friction: real) returns (n: nat)
    requires a.acc == Zero && 0.0 < friction < 4.0
    ensures !Run(a, friction, n).active
    ensures a.active ==> Run(a, friction, n).vel == Zero
  {
    var m := Margin(friction);
    var s := Speed(a.vel);
    var k := Steps(s, m);
    n := k + 1;
    BudgetCovers(s, m, k);
    RunLowersSpeed(a, friction, n);
    RunRestsAtZero(a, friction, n);
    var r := Run(a, friction, n);
    assert Speed(r.vel) >= 0.0;
  }

  /** One margin more than a count whose margins cover `s` exceeds `s`. */
  lemma BudgetCovers(s: real, m: real, k: nat)
    requires m > 0.0 && s <= k as real * m
    ensures Budget(k + 1, m) > s
  {
    assert Budget(k + 1, m) == Budget(k, m) + m;
    BudgetIsProduct(k, m);
  }
}
