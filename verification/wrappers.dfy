/** Failure-carrying result types shared by every module of the model. */
module Wrappers {

  /** The conventional optional value; stands for Rust's `Option`. */
  datatype Option<+T> = None | Some(value: T)

  /** Why a call panicked. Each variant names one `assert!`/`unwrap` of the bindings. */
  datatype Fault =
    | AlreadyInitialized   // set_initialized found the flag already set
    | NotInitialized       // the token's teardown or ensure_initialized found the runtime down
    | ChildHasParent       // a container append found that the child already has a parent
    | UnknownModifierBits  // Modifiers::from_bits(..).unwrap() on bits outside the four flags
    | NegativeProgress     // a progress bar reported a negative value other than -1
    | MissingId            // ui_must_get! on an id the pool does not hold
    | TaskShared           // Arc::get_mut(..).unwrap() on a task cell that is not uniquely owned
    | ArithmeticOverflow   // an unsigned multiplication overflowed in a build with overflow checks

  /** The result of a call that may panic. */
  datatype Outcome<+T> = Ok(value: T) | Panic(fault: Fault)
}
