/**
 * TwoWayPower: the POWER property of a two-way repeater, naming the face it
 * is locked onto (FRONT or BACK) or NONE when it is idle.
 */
module TwoWayPowers {
  import opened Grid

  datatype TwoWayPower = None | Front | Back

  /** asAxisDirection: FRONT is the positive end of the repeater's axis, BACK the negative end. */
  function AsAxisDirection(p: TwoWayPower): AxisDirection
    requires p != None
  {
    if p == Front then Positive else Negative
  }

  /** The face opposite a locked face. */
  function OppositeFace(p: TwoWayPower): (q: TwoWayPower)
    requires p != None
    ensures q != None && q != p
    ensures AsAxisDirection(q) == OppositeAxisDirection(AsAxisDirection(p))
  {
    if p == Front then Back else Front
  }

  /**
   * isAligned(axisDirection): whether a locked face points along the given
   * axis direction. Its definition is not part of this model, so the
   * operations that use it take it as a parameter.
   */
  type Alignment = (TwoWayPower, AxisDirection) -> bool
}
