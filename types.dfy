/** Values shared by every part of the MaxGate model. */
module Types {

  datatype Option<T> = None | Some(value: T)

  datatype Result<T, E> = Ok(value: T) | Err(error: E)

  /** The three positions of the cat flap, in the order of the enum `FlapStates`. */
  datatype FlapState = Closed | Outside | Inside

  /** An acceleration vector in gravity units. Components are mathematical reals, not 32-bit floats. */
  datatype Vector3 = Vector3(x: real, y: real, z: real)

  /** `new Vector3()`: the value every reference vector holds before it is calibrated or loaded. */
  const Origin := Vector3(0.0, 0.0, 0.0)

  /** The three reference vectors of the flap: `closed`, `openIN` and `openOUT`. */
  datatype References = References(closed: Vector3, openIn: Vector3, openOut: Vector3)

  /** The reference vector that stands for state `s`. */
  function RefOf(refs: References, s: FlapState): Vector3
  {
    match s
    case Closed => refs.closed
    case Inside => refs.openIn
    case Outside => refs.openOut
  }
}
