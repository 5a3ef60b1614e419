/** The arithmetic of the wheel's gestures: the direction-correction rule
    applied when a fling starts, the per-tick deceleration of a fling, and
    the rotation a drag applies. Velocities and angles are ideal reals. */
module WheelGesture {

  /** The raw fling velocity is divided by this before the first tick. */
  const InitialFlingDampening: real := 3.0
  /** Every tick divides the velocity by this. */
  const FlingDampening: real := 1.025
  /** A tick rotates only while the speed is above this. */
  const SettleThreshold: real := 5.0
  /** A tick rotates by the velocity divided by this, in degrees. */
  const VelocityPerDegree: real := 75.0

  function Abs(x: real): (r: real)
    ensures 0.0 <= r && (r == x || r == -x)
  {
    if x < 0.0 then -x else x
  }

  /** The rule table that decides when a fling from quadrant q1 to quadrant q2
      spins the wheel against the sign of vx + vy. `touched3` says whether
      quadrant 3 was touched since the last pointer-down. */
  predicate Inverted(q1: int, q2: int, vx: real, vy: real, touched3: bool)
  {
    (q1 == 2 && q2 == 2 && Abs(vx) < Abs(vy))
    || (q1 == 3 && q2 == 3)
    || (q1 == 1 && q2 == 3)
    || (q1 == 4 && q2 == 4 && Abs(vx) > Abs(vy))
    || ((q1 == 2 && q2 == 3) || (q1 == 3 && q2 == 2))
    || ((q1 == 3 && q2 == 4) || (q1 == 4 && q2 == 3))
    || (q1 == 2 && q2 == 4 && touched3)
    || (q1 == 4 && q2 == 2 && touched3)
  }

  /** The velocity the first tick of a fling starts with: the raw sum damped
      by a third, its sign flipped exactly when the rule table says so. */
  function InitialVelocity(q1: int, q2: int, vx: real, vy: real, touched3: bool): (v: real)
    ensures Abs(v) == Abs(vx + vy) / InitialFlingDampening
    ensures Inverted(q1, q2, vx, vy, touched3) ==> InitialFlingDampening * v == -(vx + vy)
    ensures !Inverted(q1, q2, vx, vy, touched3) ==> InitialFlingDampening * v == vx + vy
  {
    if Inverted(q1, q2, vx, vy, touched3) then
      (-1.0 * (vx + vy)) / InitialFlingDampening
    else
      (vx + vy) / InitialFlingDampening
  }

  /** The table is not symmetric: 1 to 3 is inverted, 3 to 1 never is. */
  lemma OneToThreeOnly(vx: real, vy: real, touched3: bool)
    ensures Inverted(1, 3, vx, vy, touched3)
    ensures !Inverted(3, 1, vx, vy, touched3)
  {
  }

  /** A fling between quadrants 2 and 4, either way, is inverted exactly when
      quadrant 3 was touched during the drag. */
  lemma AcrossTheBottom(q1: int, q2: int, vx: real, vy: real, touched3: bool)
    requires (q1 == 2 && q2 == 4) || (q1 == 4 && q2 == 2)
    ensures Inverted(q1, q2, vx, vy, touched3) <==> touched3
  {
  }

  /** A fling with an end in quadrant 3 is inverted unless it runs from 3 to 1;
      a fling that touches quadrant 1 and not quadrant 3 at its ends is never
      inverted. */
  lemma EndpointRules(q1: int, q2: int, vx: real, vy: real, touched3: bool)
    requires 1 <= q1 <= 4 && 1 <= q2 <= 4
    ensures (q1 == 3 || q2 == 3) ==> (Inverted(q1, q2, vx, vy, touched3) <==> !(q1 == 3 && q2 == 1))
    ensures (q1 == 1 || q2 == 1) && q1 != 3 && q2 != 3 ==> !Inverted(q1, q2, vx, vy, touched3)
  {
  }

  /** A fling that starts and ends in quadrant 3 with velocity (10, 0) starts
      its ticks at -10 / 3, not +10 / 3. */
  lemma LowerLeftFlingReversed(touched3: bool)
    ensures InitialVelocity(3, 3, 10.0, 0.0, touched3) == -10.0 / 3.0
  {
  }

  /** One tick of deceleration: the speed strictly shrinks and the sign is
      kept. */
  function Dampen(v: real): (r: real)
    ensures FlingDampening * r == v
    ensures 0.0 < v ==> 0.0 < r < v
    ensures v < 0.0 ==> v < r < 0.0
    ensures Abs(r) < Abs(v) || v == 0.0
  {
    v / FlingDampening
  }

  /** The velocity of a fling after k ticks that each rotated. */
  function VelocityAfter(v: real, k: nat): real
  {
    if k == 0 then v else VelocityAfter(v, k - 1) / FlingDampening
  }

  /** k + 1 rotating ticks are k ticks followed by one `Dampen` step, the
      update a rotating tick of the fling applies. */
  lemma VelocityAfterStep(v: real, k: nat)
    ensures VelocityAfter(v, k + 1) == Dampen(VelocityAfter(v, k))
  {
  }

  /** The total rotation applied by the first k ticks of a fling that starts
      with velocity v, each tick rotating by its velocity over 75. */
  function FlingRotation(v: real, k: nat): real
  {
    if k == 0 then 0.0 else FlingRotation(v, k - 1) + VelocityAfter(v, k - 1) / VelocityPerDegree
  }

  /** The velocity never changes sign and never grows. */
  lemma {:induction false} VelocityKeepsSign(v: real, k: nat)
    ensures 0.0 <= v ==> 0.0 <= VelocityAfter(v, k) <= v
    ensures v <= 0.0 ==> v <= VelocityAfter(v, k) <= 0.0
  {
    if k > 0 {
      VelocityKeepsSign(v, k - 1);
    }
  }

  /** The decay is at least harmonic: after k ticks the speed is at most
      40 / (40 + k) of the starting speed. */
  lemma {:induction false} DecayBound(v: real, k: nat)
    ensures Abs(VelocityAfter(v, k)) * (40.0 + k as real) <= 40.0 * Abs(v)
  {
    if k > 0 {
      DecayBound(v, k - 1);
      DecayStep(VelocityAfter(v, k - 1), 40.0 + (k - 1) as real, 40.0 + k as real, 40.0 * Abs(v));
    }
  }

  /** One step of DecayBound: if a speed times p is within the bound, the
      speed after one more tick times p + 1 is too. */
  lemma DecayStep(x: real, p: real, q: real, bound: real)
    requires 40.0 <= p && q == p + 1.0 && Abs(x) * p <= bound
    ensures Abs(x / FlingDampening) * q <= bound
  {
    var a, b := Abs(x), Abs(x / FlingDampening);
    assert b * 41.0 == a * 40.0;
    assert 41.0 * (b * q) == a * (40.0 * p + 40.0);
    assert a * (40.0 * p + 40.0) <= a * (41.0 * p) by {
      assert 0.0 <= a * (p - 40.0);
    }
  }

  /** A fling whose ticks are all allowed to rotate stops rotating after at
      most 8 * |v| ticks: by then the speed is at most the threshold 5. */
  lemma FlingSettles(v: real, k: nat)
    requires 8.0 * Abs(v) <= k as real
    ensures Abs(VelocityAfter(v, k)) <= SettleThreshold
  {
    DecayBound(v, k);
    SettleArithmetic(Abs(v), Abs(VelocityAfter(v, k)), k as real);
  }

  /** The arithmetic behind FlingSettles: a speed b with b * (40 + k) <= 40 a
      and 8 a <= k is at most 5. */
  lemma SettleArithmetic(a: real, b: real, k: real)
    requires 0.0 <= a && 0.0 <= b && 8.0 * a <= k && b * (40.0 + k) <= 40.0 * a
    ensures b <= 5.0
  {
    var m := 40.0 + k;
    assert 40.0 * a <= 5.0 * k < 5.0 * m;
  }

  /** The rotation applied by k ticks is a geometric sum in closed form:
      41 / 75 of the velocity that the ticks used up. */
  lemma {:induction false} FlingRotationClosedForm(v: real, k: nat)
    ensures FlingRotation(v, k) == 41.0 * (v - VelocityAfter(v, k)) / 75.0
  {
    if k > 0 {
      FlingRotationClosedForm(v, k - 1);
      assert 41.0 * VelocityAfter(v, k) == 40.0 * VelocityAfter(v, k - 1);
    }
  }

  /** However many ticks run, a fling turns the wheel in the direction of its
      initial velocity and by at most 41 / 75 of its speed. */
  lemma FlingRotationBound(v: real, k: nat)
    ensures 0.0 <= v ==> 0.0 <= FlingRotation(v, k) <= 41.0 * v / 75.0
    ensures v <= 0.0 ==> 41.0 * v / 75.0 <= FlingRotation(v, k) <= 0.0
  {
    FlingRotationClosedForm(v, k);
    VelocityKeepsSign(v, k);
  }

  /** The rotation applied by a drag that starts at angle `start` and moves
      through `angles`: every move turns the wheel by the previous angle minus
      the new one. */
  function DragRotation(start: real, angles: seq<real>): real
    decreases |angles|
  {
    if angles == [] then 0.0 else (start - angles[0]) + DragRotation(angles[0], angles[1..])
  }

  /** Over a run of moves the rotations telescope: the drag turns the wheel by
      the starting angle minus the last angle. */
  lemma {:induction false} DragTelescopes(start: real, angles: seq<real>)
    requires angles != []
    ensures DragRotation(start, angles) == start - angles[|angles| - 1]
    decreases |angles|
  {
    if |angles| > 1 {
      DragTelescopes(angles[0], angles[1..]);
    }
  }
}
