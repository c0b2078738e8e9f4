/** The nearest-reference classification of a measurement (`GetFlapState`). */
module Classifier {
  import opened Types

  /** The distance, among the three given, that belongs to state `s`. */
  function DistanceOf(s: FlapState, dClosed: real, dInside: real, dOutside: real): real
  {
    match s
    case Closed => dClosed
    case Inside => dInside
    case Outside => dOutside
  }

  /**
   * The two-round elimination: Closed against Inside first, then the winner against
   * Outside, each round with a strict `<`, so a tie goes to the later candidate.
   */
  function Classify(dClosed: real, dInside: real, dOutside: real): (s: FlapState)
    // the elimination always ends on a globally nearest state
    ensures DistanceOf(s, dClosed, dInside, dOutside) <= dClosed
    ensures DistanceOf(s, dClosed, dInside, dOutside) <= dInside
    ensures DistanceOf(s, dClosed, dInside, dOutside) <= dOutside
    // which nearest state: Closed must be strictly nearest, Inside must beat Outside strictly,
    // and Outside wins every tie it takes part in
    ensures s == Closed <==> dClosed < dInside && dClosed < dOutside
    ensures s == Inside <==> dInside <= dClosed && dInside < dOutside
    ensures s == Outside <==> dOutside <= dClosed && dOutside <= dInside
  {
    var round1 := if dClosed < dInside then Closed else Inside;
    if round1 == Closed then
      (if dClosed < dOutside then Closed else Outside)
    else
      (if dInside < dOutside then Inside else Outside)
  }

  /** The two tie rules that the strict comparisons imply. */
  lemma TiesFavourLaterCandidate(dClosed: real, dInside: real, dOutside: real)
    ensures dClosed == dInside ==> Classify(dClosed, dInside, dOutside) != Closed
    ensures dOutside == DistanceOf(if dClosed < dInside then Closed else Inside, dClosed, dInside, dOutside)
            ==> Classify(dClosed, dInside, dOutside) == Outside
  {
  }

  /** The component-wise difference `Vector3.Subtract(a, b)`. */
  function Sub(a: Vector3, b: Vector3): Vector3
  {
    Vector3(a.x - b.x, a.y - b.y, a.z - b.z)
  }

  /**
   * What the classification needs of `Vector3.Length`: it is zero on the zero vector and
   * positive on every other vector. The square root itself is not modelled.
   */
  ghost predicate IsLength(length: Vector3 -> real)
  {
    length(Origin) == 0.0 && forall v :: v != Origin ==> length(v) > 0.0
  }

  /**
   * `GetFlapState`: measures the length of the difference between the measurement and each
   * reference vector and picks the nearest by the two-round elimination.
   */
  function GetFlapState(measurement: Vector3, refs: References, length: Vector3 -> real): (s: FlapState)
    ensures length(Sub(measurement, RefOf(refs, s))) <= length(Sub(measurement, refs.closed))
    ensures length(Sub(measurement, RefOf(refs, s))) <= length(Sub(measurement, refs.openIn))
    ensures length(Sub(measurement, RefOf(refs, s))) <= length(Sub(measurement, refs.openOut))
  {
    Classify(length(Sub(measurement, refs.closed)),
             length(Sub(measurement, refs.openIn)),
             length(Sub(measurement, refs.openOut)))
  }

  /**
   * Each reference vector, measured again, classifies as its own state, except where the
   * tie rules decide otherwise: the Outside reference always does, the Inside reference
   * needs to differ from the Outside one, the Closed reference from both others.
   */
  lemma ReferencesClassifyAsThemselves(refs: References, length: Vector3 -> real)
    requires IsLength(length)
    ensures GetFlapState(refs.openOut, refs, length) == Outside
    ensures refs.openIn != refs.openOut ==> GetFlapState(refs.openIn, refs, length) == Inside
    ensures refs.closed != refs.openIn && refs.closed != refs.openOut
            ==> GetFlapState(refs.closed, refs, length) == Closed
  {
  }

  /** When the Inside and Outside references coincide, no measurement is ever classified Inside. */
  lemma EqualOpenReferencesNeverInside(measurement: Vector3, refs: References, length: Vector3 -> real)
    requires refs.openIn == refs.openOut
    ensures GetFlapState(measurement, refs, length) != Inside
  {
  }

  /** When all three references coincide, every measurement is classified Outside. */
  lemma CoincidentReferencesAlwaysOutside(measurement: Vector3, refs: References, length: Vector3 -> real)
    requires refs.closed == refs.openIn == refs.openOut
    ensures GetFlapState(measurement, refs, length) == Outside
  {
  }

  /**
   * References Closed (0,0,0), Inside (1,0,0), Outside (0.5,0,0) and measurement (0.5,0,0):
   * Closed and Inside tie at 0.5, and Outside (distance 0) wins.
   */
  lemma TieBreakExample(length: Vector3 -> real)
    requires IsLength(length)
    ensures GetFlapState(Vector3(0.5, 0.0, 0.0),
              References(Vector3(0.0, 0.0, 0.0), Vector3(1.0, 0.0, 0.0), Vector3(0.5, 0.0, 0.0)), length) == Outside
  {
  }

  /**
   * References Closed (0,0,0), Inside (1,0,0), Outside (0.5,1,0) and measurement (0.5,0,0):
   * Closed and Inside tie and Outside is farther, so the tie decides, and it goes to Inside.
   */
  lemma TieDecidesForInside(length: Vector3 -> real)
    requires length(Vector3(0.5, 0.0, 0.0)) == length(Vector3(-0.5, 0.0, 0.0))
    requires length(Vector3(0.0, -1.0, 0.0)) > length(Vector3(0.5, 0.0, 0.0))
    ensures GetFlapState(Vector3(0.5, 0.0, 0.0),
              References(Vector3(0.0, 0.0, 0.0), Vector3(1.0, 0.0, 0.0), Vector3(0.5, 1.0, 0.0)), length) == Inside
  {
  }
}
