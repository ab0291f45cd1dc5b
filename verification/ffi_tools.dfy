/** The process-wide "libui is initialized" flag of the `iui` crate and its
    zero-argument callback trampoline. The flag is modelled as a value that each
    operation takes and returns. */
module FfiTools {
  import opened Wrappers
  import opened Callbacks

  /** `INITIALIZED` holds false when the program starts. */
  const InitialFlag: bool := false

  /** `set_initialized`: swaps in true and panics when the old value was already true. */
  function SetInitialized(flag: bool): (r: Outcome<bool>)
    ensures r.Ok? <==> !flag
    ensures r.Ok? ==> r.value
    ensures r.Panic? ==> r.fault == AlreadyInitialized
  {
    if flag then Panic(AlreadyInitialized) else Ok(true)
  }

  /** `unset_initialized`: stores false whatever the flag held. */
  function UnsetInitialized(flag: bool): (r: bool)
    ensures !r
  {
    false
  }

  /** `is_initialized`: reads the flag. */
  function IsInitialized(flag: bool): bool
  {
    flag
  }

  /** From the initial flag, set then unset then set succeeds, while set then
      set panics; clearing twice is the same as clearing once. */
  lemma SetUnsetSet(flag: bool)
    ensures UnsetInitialized(UnsetInitialized(flag)) == UnsetInitialized(flag)
    ensures SetInitialized(InitialFlag).Ok?
    ensures SetInitialized(UnsetInitialized(SetInitialized(InitialFlag).value)).Ok?
    ensures SetInitialized(SetInitialized(InitialFlag).value) == Panic(AlreadyInitialized)
  {
  }

  /** `void_void_callback`: transmutes the data pointer back into an owned
      `Box<Box<FnMut()>>`, runs the closure once, and drops the box. */
  function VoidVoidCallback(b: Bridge, data: Addr): (r: Fired)
    ensures !r.NullCall?
    ensures r.Fired? <==> data in b.boxes && data !in b.stale
    ensures r.UseAfterFree? <==> data !in b.boxes
    ensures r.Fired? ==> data !in r.bridge.boxes
    ensures r.Fired? ==> r.bridge.fired == b.fired + [Invocation(b.boxes[data], [])]
  {
    Fire(b, Registration(Consuming, data), [])
  }

  /** The data pointer is dead after one call: a second call reads freed memory. */
  lemma VoidVoidCallbackFreesBox(b: Bridge, data: Addr)
    requires data in b.boxes && data !in b.stale
    ensures VoidVoidCallback(b, data).Fired?
    ensures VoidVoidCallback(VoidVoidCallback(b, data).bridge, data).UseAfterFree?
  {
  }
}
