/**
 * FacingDirection: the two sides, front and back, of a two-sided block, with
 * its conversions to and from a boolean (front is true) and an axis
 * direction (front is the positive end of the axis).
 */
module FacingDirections {
  import opened Grid

  datatype FacingDirection = Front | Back

  /** asString: the serialised name, which tells the two sides apart. */
  function AsString(f: FacingDirection): (s: string)
    ensures s == "front" <==> f == Front
    ensures s == "back" <==> f == Back
  {
    match f
    case Front => "front"
    case Back => "back"
  }

  /** toString: the same serialised name. */
  function ToString(f: FacingDirection): (s: string)
    ensures s == "front" <==> f == Front
    ensures s == "back" <==> f == Back
  {
    AsString(f)
  }

  /** asBoolean: true exactly for the side serialised as "front". */
  function AsBoolean(f: FacingDirection): (b: bool)
    ensures b <==> AsString(f) == "front"
    ensures !b <==> AsString(f) == "back"
  {
    f == Front
  }

  /** asAxisDirection: the front is the positive end of the axis, the back the negative end. */
  function AsAxisDirection(f: FacingDirection): (ad: AxisDirection)
    ensures ad == Positive <==> f == Front
    ensures ad == Negative <==> f == Back
  {
    if AsBoolean(f) then Positive else Negative
  }

  /** other: the opposite side. */
  function Other(f: FacingDirection): (o: FacingDirection)
    ensures o != f
    ensures AsBoolean(o) == !AsBoolean(f)
  {
    if AsBoolean(f) then Back else Front
  }

  /** from(boolean) */
  function FromBoolean(facing: bool): (f: FacingDirection)
    ensures AsBoolean(f) == facing
  {
    if facing then Front else Back
  }

  /** from(AxisDirection) */
  function FromAxisDirection(facing: AxisDirection): (f: FacingDirection)
    ensures AsAxisDirection(f) == facing
  {
    match facing
    case Positive => Front
    case Negative => Back
  }

  lemma OtherIsInvolution(f: FacingDirection)
    ensures Other(Other(f)) == f
    ensures Other(f) != f
  {
  }

  lemma BooleanRoundTrip(f: FacingDirection, b: bool)
    ensures FromBoolean(AsBoolean(f)) == f
    ensures AsBoolean(FromBoolean(b)) == b
  {
  }

  lemma AxisDirectionRoundTrip(f: FacingDirection, ad: AxisDirection)
    ensures FromAxisDirection(AsAxisDirection(f)) == f
    ensures AsAxisDirection(FromAxisDirection(ad)) == ad
    ensures AsAxisDirection(Front) == Positive && AsAxisDirection(Back) == Negative
  {
  }

  lemma OtherReversesAxisDirection(f: FacingDirection)
    ensures AsAxisDirection(Other(f)) == OppositeAxisDirection(AsAxisDirection(f))
  {
  }

  /** The two names differ, so a name identifies its side; toString gives that same name. */
  lemma NamesIdentifySides(f: FacingDirection, g: FacingDirection)
    ensures AsString(f) == AsString(g) ==> f == g
    ensures ToString(f) == AsString(f)
    ensures AsString(Front) == "front" && AsString(Back) == "back"
  {
  }
}
