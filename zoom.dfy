/** The zoom buttons' arithmetic, shared by the map component and the map
    page: one step in or out, clamped to levels 1..18. */
module Zoom {

  const MinZoom: int := 1
  const MaxZoom: int := 18

  predicate InRange(z: int) {
    MinZoom <= z <= MaxZoom
  }

  /** `Math.min(z + 1, 18)`: one level closer, never past the maximum. */
  function StepIn(z: int): (r: int)
    ensures r <= MaxZoom && r <= z + 1
    ensures r == z + 1 || r == MaxZoom
  {
    if z + 1 < MaxZoom then z + 1 else MaxZoom
  }

  /** `Math.max(z - 1, 1)`: one level farther, never past the minimum. */
  function StepOut(z: int): (r: int)
    ensures r >= MinZoom && r >= z - 1
    ensures r == z - 1 || r == MinZoom
  {
    if z - 1 > MinZoom then z - 1 else MinZoom
  }

  /** Both steps keep an in-range level in range; the view's own zoom may
      leave the range (Leaflet allows 0..19), and one step brings it back
      to the nearer end. */
  lemma StepsStayInRange(z: int)
    ensures InRange(z) ==> InRange(StepIn(z)) && InRange(StepOut(z))
    ensures z >= 0 ==> InRange(StepIn(z))
    ensures z <= MaxZoom + 1 ==> InRange(StepOut(z))
  {
  }

  /** Inside the range the two steps undo each other; at the ends they
      saturate. */
  lemma StepsInvert(z: int)
    ensures MinZoom <= z < MaxZoom ==> StepOut(StepIn(z)) == z
    ensures MinZoom < z <= MaxZoom ==> StepIn(StepOut(z)) == z
    ensures StepIn(MaxZoom) == MaxZoom && StepOut(MinZoom) == MinZoom
  {
  }
}
