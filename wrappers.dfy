/** Outcomes of the engine's operations: a value, or the standard exception the code throws. */
module Wrappers {

  datatype Option<+T> = None | Some(value: T)

  /** The two standard exceptions thrown by the core, with their messages. */
  datatype Exception =
    | InvalidArgument(what: string)   // std::invalid_argument
    | LogicError(what: string)        // std::logic_error

  /** A call that returns a value or throws. */
  datatype Result<+T> = Ok(value: T) | Throw(exception: Exception)

  /** A call that returns nothing or throws. */
  datatype Outcome = Pass | Fail(exception: Exception)
}

/** Widths of the machine integers the core computes with. */
module Machine {

  /** `unsigned` (32 bits): loot counts and random indices. */
  const UINT_MOD: nat := 0x1_0000_0000

  /** `size_t` and the 64-bit generator outputs. */
  const SIZE_MOD: nat := 0x1_0000_0000_0000_0000
}
