/** The Rust source has no error channel on the paths modelled here: a bad
    index or a failed slot dispatch panics. A panic is modelled as a value. */
module Outcomes {

  datatype Outcome<+T> = Done(value: T) | Panic(message: string)

  datatype Option<+T> = None | Some(value: T)

  const INDEX_OUT_OF_BOUNDS: string := "index out of bounds"
}
