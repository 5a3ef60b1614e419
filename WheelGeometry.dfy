/** Pure geometry of the prize wheel: the quadrant a touch falls in, the
    wheel's current rotation as a whole number of degrees, and the section
    that sits under the marker. */
module WheelGeometry {

  /** The quadrant of a point given relative to the wheel's centre with the
      y axis pointing up: 1 upper right, 2 upper left, 3 lower left,
      4 lower right. A point on an axis belongs to the non-negative side. */
  function Quadrant(x: real, y: real): (q: int)
    ensures 1 <= q <= 4
    ensures q == 1 <==> 0.0 <= x && 0.0 <= y
    ensures q == 2 <==> x < 0.0 && 0.0 <= y
    ensures q == 3 <==> x < 0.0 && y < 0.0
    ensures q == 4 <==> 0.0 <= x && y < 0.0
  {
    if x >= 0.0 then (if y >= 0.0 then 1 else 4)
    else (if y >= 0.0 then 2 else 3)
  }

  /** The wheel's current rotation in whole degrees. `rounded` is the angle
      decomposed from the rotation matrix and rounded to an integer, so it
      lies in [-180, 180]; the result names the same direction (it differs
      by a multiple of 360) but lies in [1, 360]: zero is reported as 360. */
  function CurrentRotation(rounded: int): (r: int)
    requires -180 <= rounded <= 180
    ensures 1 <= r <= 360
    ensures (r - rounded) % 360 == 0
    ensures rounded == 0 ==> r == 360
  {
    if rounded > 0 then rounded else 360 + rounded
  }

  /** The index of the section under the marker, for a rotation in [1, 360],
      a marker offset in [0, 360) and `n` equal sections laid out from 0
      degrees. The sum is wrapped once, and the floor of the angle over the
      section width is clamped to the last section. Section `index` covers the
      angles from index * 360 / n up to (index + 1) * 360 / n; the angle
      equivalent to 0 lands on the boundary and selects the LAST section. */
  function SelectedSectionIndex(rotation: int, offset: int, n: int): (index: int)
    requires 1 <= rotation <= 360 && 0 <= offset < 360 && 1 <= n
    ensures 0 <= index < n
    ensures var a := (rotation + offset) % 360;
            if a == 0 then index == n - 1
            else index * 360 <= a * n < (index + 1) * 360
  {
    var current := if rotation + offset > 360 then rotation + offset - 360 else rotation + offset;
    // floor(current / (360 / n)) for the non-negative angle current
    var selection := (current * n) / 360;
    SelectionFacts(current, n);
    if selection >= n then n - 1 else selection
  }

  /** What the floor in SelectedSectionIndex yields for an angle in [1, 360]. */
  lemma SelectionFacts(current: int, n: int)
    requires 1 <= current <= 360 && 1 <= n
    ensures 0 <= (current * n) / 360 <= n
    ensures (current * n) / 360 == n <==> current == 360
    ensures (current * n) / 360 * 360 <= current * n < ((current * n) / 360 + 1) * 360
  {
    var s := (current * n) / 360;
    assert current * n <= 360 * n;
    if current < 360 {
      assert current * n < 360 * n;
      assert s < n;
    } else {
      assert current * n == n * 360;
    }
  }

  /** At rest (the decomposed angle is 0) with no marker offset the wheel
      reports rotation 360 and the last section, not section 0. */
  lemma RestSelectsLastSection(n: int)
    requires 1 <= n
    ensures CurrentRotation(0) == 360
    ensures SelectedSectionIndex(CurrentRotation(0), 0, n) == n - 1
    ensures n == 4 ==> SelectedSectionIndex(CurrentRotation(0), 90, n) == 1
  {
  }
}
