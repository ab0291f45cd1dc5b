/** Runtime lifecycle: `UI::init` and the shared `UIToken` of the `iui` crate,
    and `init` / `uninit` / `InitError` of the older `ui` crate. */
module Lifecycle {
  import opened Wrappers
  import opened Foreign
  import opened FfiTools
  import opened Windows

  /** What the foreign `uiInit` answers: null, or an error string. */
  datatype InitReply = InitOk | InitErr(message: string)

  /** The error type `UI::init` returns. */
  datatype UIError = FailedInitError(error: string) | MultipleInitError

  /** `Ok(UI)` (a handle sharing the token) or `Err(UIError)`. */
  datatype UiResult = Granted | Refused(error: UIError)

  // Replaying a call trace

  /** The initialized flag after the calls in `t`, starting from `f`. */
  function FlagAfter(f: bool, t: seq<Call>): bool
    decreases |t|
  {
    if t == [] then f
    else FlagAfter(if t[0] == FlagSet then true else if t[0] == FlagCleared then false else f, t[1..])
  }

  lemma {:induction false} FlagAfterAppend(f: bool, a: seq<Call>, b: seq<Call>)
    ensures FlagAfter(f, a + b) == FlagAfter(FlagAfter(f, a), b)
    decreases |a|
  {
    if a == [] {
      assert a + b == b;
    } else {
      assert (a + b)[1..] == a[1..] + b;
      FlagAfterAppend(if a[0] == FlagSet then true else if a[0] == FlagCleared then false else f, a[1..], b);
    }
  }

  /** How many destroy calls in `t` happen while the flag is set, starting from `f`. */
  function DestroysWhileSet(f: bool, t: seq<Call>): (n: nat)
    ensures n <= |t|
    decreases |t|
  {
    if t == [] then 0
    else
      (if f && t[0].UiControlDestroy? then 1 else 0)
      + DestroysWhileSet(if t[0] == FlagSet then true else if t[0] == FlagCleared then false else f, t[1..])
  }

  lemma {:induction false} DestroysWhileSetAppend(f: bool, a: seq<Call>, b: seq<Call>)
    ensures DestroysWhileSet(f, a + b) == DestroysWhileSet(f, a) + DestroysWhileSet(FlagAfter(f, a), b)
    decreases |a|
  {
    if a == [] {
      assert a + b == b;
    } else {
      assert (a + b)[1..] == a[1..] + b;
      DestroysWhileSetAppend(if a[0] == FlagSet then true else if a[0] == FlagCleared then false else f, a[1..], b);
    }
  }

  /** Destroying windows leaves the flag alone, and every destroy counts when it is set. */
  lemma {:induction false} DestroysKeepFlag(f: bool, ws: seq<Ptr>)
    ensures FlagAfter(f, DestroyCalls(ws)) == f
    ensures DestroysWhileSet(f, DestroyCalls(ws)) == (if f then |ws| else 0)
  {
    if ws != [] {
      assert DestroyCalls(ws)[1..] == DestroyCalls(ws[1..]);
      DestroysKeepFlag(f, ws[1..]);
    }
  }

  /** The flag agrees with the trace of flag calls made so far, and (for the
      `iui` crate) a live token exists exactly while the flag is set. */
  ghost predicate Consistent(w: World)
  {
    && Good(w)
    && FlagAfter(false, w.trace) == w.initialized
    && (w.tokenRefs > 0 <==> w.initialized)
  }

  lemma StartConsistent()
    ensures Consistent(Start)
  {
  }

  // The `iui` crate

  /** `UI::init`: refuses with `MultipleInitError` without any foreign call when
      the flag is set; otherwise calls `uiInit`. On success the flag is set and a
      fresh token with one owner is created; on failure the message is copied,
      the foreign string freed, and the flag left unset. */
  function Init(w: World, reply: InitReply): (r: (World, UiResult))
    ensures w.initialized ==> r == (w, Refused(MultipleInitError))
    ensures !w.initialized && reply.InitOk? ==>
              && r.1 == Granted
              && r.0 == w.(initialized := true, tokenRefs := 1, trace := w.trace + [UiInit, FlagSet])
    ensures !w.initialized && reply.InitErr? ==>
              && r.1 == Refused(FailedInitError(reply.message))
              && r.0 == w.(trace := w.trace + [UiInit, UiFreeInitError])
  {
    if IsInitialized(w.initialized) then (w, Refused(MultipleInitError))
    else
      var w1 := w.(trace := w.trace + [UiInit]);
      match reply
      case InitOk =>
        var flag := SetInitialized(w1.initialized);
        (w1.(initialized := flag.value, tokenRefs := 1, trace := w1.trace + [FlagSet]), Granted)
      case InitErr(message) =>
        (w1.(trace := w1.trace + [UiFreeInitError]), Refused(FailedInitError(message)))
  }

  /** `UI::init` keeps the world consistent. */
  lemma InitConsistent(w: World, reply: InitReply)
    requires Consistent(w)
    ensures Consistent(Init(w, reply).0)
  {
    if !w.initialized {
      match reply
      case InitOk =>
        FlagAfterAppend(false, w.trace, [UiInit, FlagSet]);
      case InitErr(_) =>
        FlagAfterAppend(false, w.trace, [UiInit, UiFreeInitError]);
    }
  }

  /** Cloning a `UI` shares the token: one more owner. */
  function CloneUI(w: World): (r: World)
    requires w.tokenRefs > 0
    ensures r.tokenRefs == w.tokenRefs + 1
    ensures r == w.(tokenRefs := r.tokenRefs)
  {
    w.(tokenRefs := w.tokenRefs + 1)
  }

  /** A clone followed by a drop gives back the world as it was, and cloning
      keeps the world consistent. */
  lemma CloneThenDropRestores(w: World)
    requires w.tokenRefs > 0
    ensures DropUI(CloneUI(w)) == Ok(w)
    ensures Consistent(w) ==> Consistent(CloneUI(w))
  {
  }

  /** `UIToken::drop`: asserts the flag is set, then destroys every registered
      window, calls `uiUninit`, and clears the flag, in that order. */
  function TokenDrop(w: World): (r: Outcome<World>)
    ensures r.Panic? <==> !w.initialized
    ensures r.Panic? ==> r.fault == NotInitialized
    ensures r.Ok? ==> r.value.trace == w.trace + DestroyCalls(w.windows) + [UiUninit, FlagCleared]
    ensures r.Ok? ==> !r.value.initialized && r.value.windows == []
    ensures r.Ok? ==> r.value.bridge == w.bridge && r.value.store == w.store && r.value.tokenRefs == w.tokenRefs
  {
    if !IsInitialized(w.initialized) then Panic(NotInitialized)
    else
      var d := DestroyAllWindows(w);
      var u := d.(trace := d.trace + [UiUninit]);
      Ok(u.(initialized := UnsetInitialized(u.initialized), trace := u.trace + [FlagCleared]))
  }

  /** Dropping one `UI` handle: only the last owner runs the token's teardown. */
  function DropUI(w: World): (r: Outcome<World>)
    requires w.tokenRefs > 0
    ensures w.tokenRefs > 1 ==> r == Ok(w.(tokenRefs := w.tokenRefs - 1))
    ensures w.tokenRefs == 1 ==> (r.Panic? <==> !w.initialized)
    ensures w.tokenRefs == 1 && r.Ok? ==>
              && r.value.tokenRefs == 0 && !r.value.initialized && r.value.windows == []
              && r.value.trace == w.trace + DestroyCalls(w.windows) + [UiUninit, FlagCleared]
  {
    if w.tokenRefs > 1 then Ok(w.(tokenRefs := w.tokenRefs - 1))
    else
      match TokenDrop(w)
      case Ok(v) => Ok(v.(tokenRefs := 0))
      case Panic(f) => Panic(f)
  }

  /** In a consistent world dropping a handle never panics and keeps consistency. */
  lemma DropUIConsistent(w: World)
    requires Consistent(w) && w.tokenRefs > 0
    ensures DropUI(w).Ok? && Consistent(DropUI(w).value)
  {
    if w.tokenRefs == 1 {
      var r := DropUI(w).value;
      FlagAfterAppend(false, w.trace, DestroyCalls(w.windows));
      DestroysKeepFlag(true, w.windows);
      assert r.trace == (w.trace + DestroyCalls(w.windows)) + [UiUninit, FlagCleared];
      FlagAfterAppend(false, w.trace + DestroyCalls(w.windows), [UiUninit, FlagCleared]);
    }
  }

  /** The `iui` teardown destroys every window while the flag is still set. */
  lemma TokenDropDestroysWhileInitialized(w: World)
    requires w.initialized
    ensures TokenDrop(w).Ok?
    ensures var t := TokenDrop(w).value.trace;
            && |w.trace| <= |t|
            && DestroysWhileSet(true, t[|w.trace|..]) == |w.windows|
            && FlagAfter(true, t[|w.trace|..]) == false
  {
    var t := TokenDrop(w).value.trace;
    assert t[|w.trace|..] == DestroyCalls(w.windows) + [UiUninit, FlagCleared];
    DestroysKeepFlag(true, w.windows);
    DestroysWhileSetAppend(true, DestroyCalls(w.windows), [UiUninit, FlagCleared]);
    FlagAfterAppend(true, DestroyCalls(w.windows), [UiUninit, FlagCleared]);
  }

  /** The documented scenario: init succeeds, a second init is refused, and once
      the first `UI` is dropped init succeeds again. */
  lemma InitDropInitAgain(w: World, second: InitReply)
    requires Consistent(w) && !w.initialized
    ensures var (w1, r1) := Init(w, InitOk);
            && r1 == Granted
            && Init(w1, second) == (w1, Refused(MultipleInitError))
            && DropUI(w1).Ok?
            && Init(DropUI(w1).value, InitOk).1 == Granted
  {
  }

  // The `ui` crate

  /** An `InitError` owns the error string `uiInit` returned. */
  datatype InitError = InitError(ptr: Ptr)

  datatype CrateInit = Done | Failed(error: InitError)

  /** `init` of the `ui` crate: no check for an earlier init. A null answer calls
      `set_initialized`, which returns (`setOk`) or panics, and then hands back
      success; otherwise the error pointer is handed back inside an `InitError`
      and nothing is marked. */
  function UiCrateInit(w: World, err: Ptr, setOk: bool): (r: Outcome<(World, CrateInit)>)
    ensures r.Panic? <==> err == Null && !setOk
    ensures r.Panic? ==> r.fault == AlreadyInitialized
    ensures err == Null && setOk ==> r == Ok((w.(initialized := true, trace := w.trace + [UiInit, FlagSet]), Done))
    ensures err != Null ==> r == Ok((w.(trace := w.trace + [UiInit]), Failed(InitError(err))))
  {
    var w1 := w.(trace := w.trace + [UiInit]);
    assert w1.trace + [FlagSet] == w.trace + [UiInit, FlagSet];
    if err != Null then Ok((w1, Failed(InitError(err))))
    else if !setOk then Panic(AlreadyInitialized)
    else Ok((w1.(initialized := true, trace := w1.trace + [FlagSet]), Done))
  }

  /** A successful `ui` init leaves a trace whose replay marks the runtime
      initialized, whatever the flag held before. */
  lemma CrateInitMarksInitialized(w: World)
    ensures UiCrateInit(w, Null, true).Ok?
    ensures var w1 := UiCrateInit(w, Null, true).value.0;
            && |w.trace| <= |w1.trace|
            && FlagAfter(w.initialized, w1.trace[|w.trace|..]) == w1.initialized == true
  {
    var w1 := UiCrateInit(w, Null, true).value.0;
    assert w1.trace[|w.trace|..] == [UiInit, FlagSet];
    assert [UiInit, FlagSet][1..] == [FlagSet];
    assert [FlagSet][1..] == [];
  }

  /** Dropping an `InitError` frees its string: exactly one `uiFreeInitError`. */
  function DropInitError(trace: seq<Call>, e: InitError): (r: seq<Call>)
    ensures Count(r, UiFreeInitError) == Count(trace, UiFreeInitError) + 1
    ensures |r| == |trace| + 1 && r[..|trace|] == trace
  {
    CountAppend(trace, [UiFreeInitError], UiFreeInitError);
    assert (trace + [UiFreeInitError])[..|trace|] == trace;
    trace + [UiFreeInitError]
  }

  /** `Deref` of `InitError`: the message when the bytes are valid UTF-8, else "". */
  function InitErrorText(bytes: string, validUtf8: bool): (r: string)
    ensures validUtf8 ==> r == bytes
    ensures !validUtf8 ==> r == ""
  {
    if validUtf8 then bytes else ""
  }

  /** Invalid bytes read as the message an empty string would give. */
  lemma InvalidErrorTextIsEmpty(bytes: string, other: string)
    ensures InitErrorText(bytes, false) == InitErrorText([], true)
    ensures InitErrorText(bytes, false) == InitErrorText(other, false)
    ensures InitErrorText(bytes, true) == InitErrorText(other, true) <==> bytes == other
  {
  }

  /** A failed `ui` init followed by dropping the error frees the string once and
      leaves the flag as it was, whatever `set_initialized` would have done. */
  lemma FailedCrateInitFreesOnce(w: World, err: Ptr, setOk: bool)
    requires err != Null
    ensures UiCrateInit(w, err, setOk).Ok?
    ensures var (w1, res) := UiCrateInit(w, err, setOk).value;
            && res.Failed?
            && w1.initialized == w.initialized
            && FlagAfter(w.initialized, w1.trace[|w.trace|..]) == w.initialized
            && Count(DropInitError(w1.trace, res.error), UiFreeInitError) == Count(w.trace, UiFreeInitError) + 1
  {
    var w1 := UiCrateInit(w, err, setOk).value.0;
    assert w1.trace[|w.trace|..] == [UiInit];
    assert [UiInit][1..] == [];
    CountAppend(w.trace, [UiInit], UiFreeInitError);
  }

  /** `uninit` of the `ui` crate: clears the flag FIRST, then destroys every
      registered window, then calls `uiUninit`. */
  function UiCrateUninit(w: World): (r: World)
    ensures !r.initialized && r.windows == []
    ensures r.trace == w.trace + [FlagCleared] + DestroyCalls(w.windows) + [UiUninit]
    ensures r.bridge == w.bridge && r.store == w.store && r.tokenRefs == w.tokenRefs
  {
    var cleared := w.(initialized := false, trace := w.trace + [FlagCleared]);
    var d := DestroyAllWindows(cleared);
    d.(trace := d.trace + [UiUninit])
  }

  /** A window made with the `ui` crate's `Window::new` is destroyed at
      `uninit` once more than the registry already held it: once, for a new
      pointer. */
  lemma UiWindowDestroyedAtUninit(w: World, p: Ptr)
    ensures UiWindowNew(true, w, p).Ok?
    ensures var u := UiCrateUninit(UiWindowNew(true, w, p).value.0);
            && Count(u.trace, UiControlDestroy(p)) == Count(w.trace, UiControlDestroy(p)) + Count(w.windows, p) + 1
            && u.windows == []
  {
    var w1 := UiWindowNew(true, w, p).value.0;
    var d := UiControlDestroy(p);
    CountAppend(w.trace + [FlagCleared], DestroyCalls(w1.windows), d);
    CountAppend(w.trace + [FlagCleared] + DestroyCalls(w1.windows), [UiUninit], d);
    CountAppend(w.trace, [FlagCleared], d);
    CountDestroyCalls(w1.windows, p);
    CountAppend(w.windows, [p], p);
  }

  /** In contrast to the `iui` token, the `ui` crate destroys every window after
      the flag is already clear. */
  lemma UiCrateUninitDestroysWhileCleared(w: World)
    ensures var t := UiCrateUninit(w).trace;
            && |w.trace| <= |t|
            && DestroysWhileSet(true, t[|w.trace|..]) == 0
            && FlagAfter(true, t[|w.trace|..]) == false
  {
    var t := UiCrateUninit(w).trace;
    assert t[|w.trace|..] == [FlagCleared] + (DestroyCalls(w.windows) + [UiUninit]);
    DestroysKeepFlag(false, w.windows);
    DestroysWhileSetAppend(true, [FlagCleared], DestroyCalls(w.windows) + [UiUninit]);
    DestroysWhileSetAppend(false, DestroyCalls(w.windows), [UiUninit]);
    FlagAfterAppend(true, [FlagCleared], DestroyCalls(w.windows) + [UiUninit]);
    FlagAfterAppend(false, DestroyCalls(w.windows), [UiUninit]);
  }
}
