# libui-rs bindings core, modelled in Dafny

This project models the safety core of the Rust bindings to the libui GUI
toolkit. That covers the `iui` crate, the older `ui` crate, and the top-level
`src` crate. The model covers these parts:

- the process-wide "libui is initialized" flag, and the `UI` token whose last
  owner tears the runtime down;
- the thread-local `WINDOWS` registry that every window constructor appends to
  and that teardown drains;
- the callback bridge: closures are boxed twice and leaked, then handed to the
  toolkit as a data pointer next to a trampoline. A trampoline either borrows
  the box or takes it back as owned and frees it;
- event-loop stepping, and the toolkit's main-thread queue that `queue_main` and
  `on_should_quit` feed;
- the cooperative executor behind `Context::spawn`, modelled as a ledger of
  `Arc` strong counts that the waker vtable adjusts by hand;
- the menu bar and its finalization flag;
- handle aliasing, parent navigation, and the "child already has a parent"
  assertion of box and form appends;
- the decoding of the drawing area's `Modifiers` and event records;
- the progress bar's value encoding;
- the id pool macros.

The foreign toolkit is modelled as data:

- pointers are natural numbers, with 0 as null;
- every call the bindings make into the toolkit is appended to an ordered
  trace (`Foreign.Call`);
- per-object state is kept in a `Foreign.Store`: parent pointers, integer
  properties, and container children.

Answers the toolkit gives are parameters, for example what `uiInit` returns or
what `uiMainStep` answers. Rust panics are the `Panic` case of
`Wrappers.Outcome`. A trampoline that reads a freed box, or a null function
pointer called by the toolkit, shows up as the `UseAfterFree` and `NullCall`
outcomes of `Callbacks.Fire`.

Some helpers are called by the modelled code but are not part of this model.
Each becomes a parameter:

- `ffi_utils::ensure_initialized` becomes a boolean `guard`;
- `to_heap_ptr` and `from_void_ptr` become the trampoline `Helper(releases)`,
  where whether the box is freed is the parameter;
- the `ui` crate's `ffi_utils::set_initialized` becomes a boolean `setOk`, which
  says whether that call returns or panics;
- `ctx.parent_of` becomes a read of the store.

Nothing in the source writes `HAS_FINALIZED_MENUS`: `Menus.MenusNeverFinalize`
proves that the flag stays clear, and the write the crate's own test expects
of `Window::new` is the corrected transition `Menus.Finalize`.

## Model

| member | source | states |
|---|---|---|
| `FfiTools.SetInitialized` | iui/src/ffi_tools.rs:16-19 | succeeds exactly when the flag was clear and leaves it set; panics with AlreadyInitialized when it was already set |
| `FfiTools.UnsetInitialized` | iui/src/ffi_tools.rs:27-29 | the flag is clear afterwards whatever it held |
| `FfiTools.SetUnsetSet` | iui/src/ffi_tools.rs:6-29 | from the initial flag, set-unset-set succeeds, while set-set panics with AlreadyInitialized; clearing twice is the same as clearing once |
| `FfiTools.VoidVoidCallback` | iui/src/ffi_tools.rs:37-39 | never a null call; runs the closure (no arguments) exactly when its box is live, and frees the box |
| `FfiTools.VoidVoidCallbackFreesBox` | iui/src/ffi_tools.rs:37-39 | after one call the data pointer is dead: a second call reads freed memory |
| `Callbacks.Leak` | iui/src/controls/basic.rs:54-60 | the leaked box is fresh: no live box and no registration uses its address, and nothing else changes |
| `Callbacks.Register` | iui/src/controls/basic.rs:54-60 | the slot now holds the given trampoline and a fresh box holding the closure; every earlier box stays allocated (the previous one leaks); other slots are unchanged |
| `Callbacks.Fire` | iui/src/controls/basic.rs:63-68 | null call exactly for a missing function pointer; use-after-free exactly for a dead box; otherwise the boxed closure runs once with the given pointers, the box survives exactly when the trampoline does not free it, and every other box keeps its contents |
| `Callbacks.BorrowedFiresEveryTime` | iui/src/controls/basic.rs:63-68 | a borrowing registration raised n times runs its closure n times in a row, and its box stays live |
| `Callbacks.ConsumedFiresOnce` | iui/src/controls/window.rs:104-110 | a consuming registration runs once; raising the same event again reads freed memory |
| `Handles.DropHandle` | ui/src/controls/mod.rs:25-31 | dropping a handle leaves the toolkit's state untouched |
| `Handles.FromUiControl` | ui/src/controls/create_macro.rs:58-65 | the wrapper holds exactly the pointer it was given, without any check |
| `Handles.ConstructedWrapsPointer` | iui/src/controls/basic.rs:22-27 | a constructor's wrapper is the control at the toolkit's pointer: a parent set through it is seen by any `Control` around that pointer, and two wrappers of one kind are equal exactly when their pointers are |
| `Handles.IntoControl` | ui/src/controls/create_macro.rs:47-56 | the generic control keeps the wrapper's pointer |
| `Handles.HandleIdentity` | ui/src/controls/mod.rs:25-54 | a clone is the same handle; wrapping and unwrapping a pointer are inverse; converting a clone equals converting the original; dropping a clone leaves the original's parent, every other parent and the original's properties as they were |
| `Handles.Parent` | ui/src/controls/mod.rs:70-82 | `None` exactly when the toolkit's parent pointer is null, otherwise a control around that pointer |
| `Handles.SetParent` | ui/src/controls/mod.rs:84-96 | the control's parent becomes null for `None` and the parent's pointer for `Some`; every other control keeps its parent |
| `Handles.ParentAfterSetParent` | src/controls.rs:42-65 | reading the parent back after setting a non-null one (or `None`) returns what was set; other controls read as before |
| `Handles.AliasSeesParent` | ui/src/controls/create_macro.rs:38-56 | a parent set through a clone is seen through the original |
| `Handles.CheckedParent` | ui/src/controls/mod.rs:70-82 | panics exactly when the initialization guard refuses; otherwise reads the parent as `Parent` does |
| `Handles.CheckedSetParent` | ui/src/controls/mod.rs:84-96 | panics exactly when the guard refuses; otherwise records the parent pointer and leaves other controls alone |
| `Handles.Destroy` | ui/src/controls/mod.rs:56-62 | exactly one destroy call for the control's pointer is appended to the trace, with no initialization check |
| `Handles.UiBoxAppend` | ui/src/controls/mod.rs:225-233 | panics exactly when the guard refuses or the child already has a parent; otherwise the child is appended at the end of the box's children with its stretchy flag, its parent becomes the box, and other parents, other containers' children and the properties are unchanged |
| `Handles.AppendTwicePanics` | ui/src/controls/mod.rs:225-233 | a child appended once cannot be appended again anywhere: the second append panics with ChildHasParent |
| `Widgets.OnClicked` | iui/src/controls/basic.rs:52-69 | the button's click slot holds a borrowing trampoline over a fresh live box with the closure; every earlier box stays allocated, other slots are unchanged, and nothing runs |
| `Widgets.ClickThroughClone` | iui/src/controls/basic.rs:63-68 | clicking through any clone runs the closure once per click, n clicks give n runs, each with the button's pointer |
| `Widgets.ReRegistrationLeaks` | ui/src/controls/mod.rs:182-202 | after a second registration only the second closure runs, and the first box is still allocated with nothing referring to it |
| `Widgets.UiOnEvent` | ui/src/controls/mod.rs:280-300 | panics exactly when the guard refuses; otherwise the slot holds a borrowing trampoline over a fresh live box with the closure, earlier boxes and other slots are unchanged, and the next event runs the closure once with the widget's pointer |
| `Windows.DestroyAllWindows` | iui/src/controls/window.rs:169-176 | the registry ends empty, and every registered window gets one destroy call, in registration order; nothing else changes |
| `Windows.WindowNew` | iui/src/controls/window.rs:33-62 | the window's pointer is appended to the registry, its closing slot holds a consuming trampoline over a wrapper around the quit-on-close handler whose captured callback is already out of scope, and its margins are on; earlier boxes, other slots, other properties, parents and children are unchanged |
| `Windows.OnClosing` | iui/src/controls/window.rs:90-112 | the closing slot holds a consuming trampoline over a live box whose non-`move` wrapper borrows the handler from the returned frame, so the box is marked dangling; only the callback state changes |
| `Windows.CloseRequest` | iui/src/controls/window.rs:92-110 | the answer to the toolkit is always 0 ("keep open"), whatever the handler does |
| `Windows.CloseRequestDangles` | iui/src/controls/window.rs:90-112 | already the first close request of a new window, and of any window given a handler through `on_closing`, calls through a dangling capture; the handler never runs |
| `Windows.OnClosingBorrowed` | iui/src/controls/window.rs:90-112 | corrected registration: a `move` wrapper owns the handler, and the closing slot holds a borrowing trampoline over a live, non-dangling box with it |
| `Windows.BorrowedClosingSurvives` | iui/src/controls/window.rs:90-112 | with the corrected registration, n close requests run the handler n times |
| `Windows.DestroyWindow` | iui/src/controls/window.rs:180-183 | one destroy call is appended; the registry is left as it was |
| `Windows.DestroyedWindowDestroyedAgain` | iui/src/controls/window.rs:178-183 | two windows, the first destroyed explicitly, then teardown: the first gets two destroy calls and the second one |
| `Windows.DestroyWindowUnregistered` | iui/src/controls/window.rs:178-183 | corrected destroy: one destroy call, and the window no longer occurs in the registry while every other window keeps its count and its order; nothing else in the world changes |
| `Windows.WithoutKeepsOrder` | iui/src/controls/window.rs:169-183 | removing a window from the registry keeps the order of the others: removal distributes over concatenation, and a single entry stays exactly when it is not the one removed |
| `Windows.EachWindowDestroyedOnce` | iui/src/controls/window.rs:169-183 | with the corrected destroy, the same scenario destroys each window exactly once |
| `Windows.FileDialog` | iui/src/controls/window.rs:130-137 | `None` exactly when the dialog returned a null pointer, otherwise the path text |
| `Windows.FileDialogAnswers` | iui/src/controls/window.rs:130-137 | two dialogs answer alike exactly when both were cancelled or both gave the same path; a cancelled dialog never looks like a chosen file |
| `Windows.UiWindowNew` | ui/src/windows.rs:96-109 | panics exactly when the guard refuses; otherwise the window wraps the pointer and is appended to the registry, with nothing else changed |
| `Windows.UiOnClosing` | ui/src/window.rs:70-89 | panics exactly when the guard refuses; otherwise the closing slot holds a consuming trampoline over a fresh live box with the callback, earlier boxes and other slots are unchanged, nothing runs, and the rest of the world is untouched |
| `Windows.UiCloseRequest` | ui/src/window.rs:82-88 | the answer to the toolkit is 1 or 0 as the callback answered true or false |
| `Windows.UiKeptOpenThenUseAfterFree` | ui/src/windows.rs:52-60 | a callback answering false keeps the window open, but its box is freed, so the next close request reads freed memory |
| `Lifecycle.StartConsistent` | iui/src/ffi_tools.rs:6 | at program start the flag, the trace and the token agree |
| `Lifecycle.Init` | iui/src/ui.rs:68-96 | refused with MultipleInitError and no foreign call when already initialized; otherwise `uiInit` is called, and on success the flag is set with a one-owner token; on failure the message is returned, the error string freed and the flag left clear |
| `Lifecycle.InitConsistent` | iui/src/ui.rs:68-96 | init keeps the flag equal to the replay of the trace, and a token exists exactly while the flag is set |
| `Lifecycle.CloneUI` | iui/src/ui.rs:35-38 | cloning a `UI` adds one owner of the shared token and changes nothing else |
| `Lifecycle.TokenDrop` | iui/src/ui.rs:21-32 | panics exactly when the flag is clear; otherwise destroys every registered window, then calls `uiUninit`, then clears the flag, in that order, leaving the registry empty |
| `Lifecycle.DropUI` | iui/src/ui.rs:21-32 | dropping a handle that is not the last only removes an owner; dropping the last tears down as the token does |
| `Lifecycle.CloneThenDropRestores` | iui/src/ui.rs:21-38 | a clone followed by a drop gives back the world as it was, and cloning keeps the world consistent |
| `Lifecycle.DropUIConsistent` | iui/src/ui.rs:21-32 | in a consistent state dropping a handle never panics and keeps the state consistent |
| `Lifecycle.TokenDropDestroysWhileInitialized` | iui/src/ui.rs:21-32 | every window destroyed at teardown is destroyed while the flag is still set, and the flag ends clear |
| `Lifecycle.InitDropInitAgain` | iui/src/ui.rs:52-64 | init succeeds, a second init is refused, and after the `UI` is dropped init succeeds again |
| `Lifecycle.UiCrateInit` | ui/src/ui.rs:17-28 | a null error pointer calls `set_initialized` and marks the runtime initialized, or panics when that call does; otherwise the pointer comes back inside an `InitError` and nothing is marked; `init` itself never checks for an earlier init |
| `Lifecycle.CrateInitMarksInitialized` | ui/src/ui.rs:17-28 | replaying the calls of a successful init marks the runtime initialized, whatever the flag held before |
| `Lifecycle.DropInitError` | ui/src/ui.rs:56-60 | dropping the error frees its string exactly once more and keeps the earlier trace |
| `Lifecycle.InitErrorText` | ui/src/ui.rs:68-73 | the message when its bytes are valid UTF-8, else the empty string |
| `Lifecycle.InvalidErrorTextIsEmpty` | ui/src/ui.rs:68-73 | invalid bytes read as the empty message; valid messages read back distinct exactly when their bytes differ |
| `Lifecycle.FailedCrateInitFreesOnce` | ui/src/ui.rs:17-60 | a failed init never panics, its calls leave the flag as it was, and dropping its error frees the string once |
| `Lifecycle.UiCrateUninit` | ui/src/ui.rs:32-38 | clears the flag first, then destroys every registered window, then calls `uiUninit`; the registry ends empty |
| `Lifecycle.UiWindowDestroyedAtUninit` | ui/src/ui.rs:32-38 | a window made with the `ui` crate's `Window::new` gets one destroy call at `uninit` per registry entry, so exactly one for a new pointer |
| `Lifecycle.UiCrateUninitDestroysWhileCleared` | ui/src/ui.rs:32-38 | unlike the `iui` token, no window is destroyed while the flag is set |
| `EventLoop.OnTick` | iui/src/ui.rs:176-178 | the loop's callback becomes the given one; nothing is logged, so nothing has run yet |
| `EventLoop.StepAfterOnTick` | iui/src/ui.rs:176-205 | after `on_tick(c)`, the next step logs the toolkit step and then a tick of `c`, whatever callback was set before |
| `EventLoop.RunCallback` | iui/src/ui.rs:186-192 | exactly one `Tick` of the callback is logged if there is one, and nothing otherwise; the earlier log is kept |
| `EventLoop.Step` | iui/src/ui.rs:186-205 | the toolkit step with the given wait is logged before the callback's tick; "keep running" exactly when the toolkit answered 1 |
| `EventLoop.Round` | iui/src/ui.rs:186-205 | what one step logs starts with the toolkit call, carries that step's wait flag, and contains no sleep |
| `EventLoop.NextTick` | iui/src/ui.rs:186-192 | one non-blocking round is logged; "keep running" exactly when the toolkit answered 1 |
| `EventLoop.NextEventTick` | iui/src/ui.rs:199-205 | one blocking round is logged; "keep running" exactly when the toolkit answered 1 |
| `EventLoop.Rounds` | iui/src/ui.rs:209-227 | the log of `n` steps in a row has at least one event per step, no sleep at all, and only the given wait flag |
| `EventLoop.Drive` | iui/src/ui.rs:209-227 | steps until the first answer other than 1, consuming exactly the answers up to and including it; the log gains one round per step and nothing else |
| `EventLoop.Run` | iui/src/ui.rs:209-215 | blocking rounds until the toolkit says stop, with no sleep between them |
| `EventLoop.RunDelay` | iui/src/ui.rs:220-227 | non-blocking rounds back to back until the toolkit says stop, then one sleep of the computed delay; no sleep comes before the last event; panics exactly when the delay computation overflows with overflow checks |
| `EventLoop.DelayNanos` | iui/src/ui.rs:226 | `delay_ms * 1000000` on `u32`: exact up to 4294 ms; above that it panics with overflow checks and wraps modulo 2^32 without them |
| `EventLoop.LongDelayOverflows` | iui/src/ui.rs:226 | 4295 ms panics with overflow checks and becomes 32704 ns without them |
| `EventLoop.Paced` | iui/src/ui.rs:217-220 | the paced log of `n` steps ends in a sleep, and every callback tick is followed directly by a sleep |
| `EventLoop.RunDelayPaced` | iui/src/ui.rs:217-220 | stops as `run_delay` does, but every callback tick in the log is directly followed by a sleep of the full delay |
| `EventLoop.Enqueue` | ui/src/ui.rs:76-85 | a fresh box is queued behind everything already pending, with the given trampoline |
| `EventLoop.QueueMainIui` | iui/src/ui.rs:136-145 | a fresh box with the closure is queued behind the pending ones, with a null function pointer; nothing runs and the should-quit handler is kept |
| `EventLoop.QueueMainUi` | ui/src/ui.rs:76-85 | a fresh box with the closure is queued behind the pending ones, with the consuming `void_void_callback`; nothing runs and the should-quit handler is kept |
| `EventLoop.QueueMainUnsafe` | iui/src/concurrent.rs:47-57 | a fresh box with the closure is queued behind the pending ones, with the helper trampoline; nothing runs and the should-quit handler is kept |
| `EventLoop.QueueMainUnsafeRunsOnce` | iui/src/concurrent.rs:47-57 | dispatching a closure queued by `queue_main_unsafe` runs it exactly once, and its box is freed exactly when the helper releases it |
| `EventLoop.SetShouldQuit` | ui/src/ui.rs:89-98 | the should-quit slot holds the given trampoline over a fresh live box with the closure; the queue, every other box and every slot are unchanged, and nothing runs |
| `EventLoop.OnShouldQuitIui` | iui/src/ui.rs:148-157 | the should-quit handler is a fresh live box with the closure, registered with a null function pointer; the queue, every other box and every slot are unchanged, and nothing runs |
| `EventLoop.OnShouldQuitUi` | ui/src/ui.rs:89-98 | the should-quit handler is a fresh live box with the closure, registered with the consuming `void_void_callback`; the queue, every other box and every slot are unchanged, and nothing runs |
| `EventLoop.UiShouldQuitFreedAfterOneAsk` | ui/src/ui.rs:89-98 | the `ui` crate's should-quit handler runs at the first ask, and the second ask reads freed memory |
| `EventLoop.OnShouldQuitBorrowed` | iui/src/ui.rs:148-157 | corrected registration: the should-quit handler is a fresh live box with the closure under a borrowing trampoline; the queue, every other box and every slot are unchanged, and nothing runs |
| `EventLoop.CorrectedShouldQuitAnswersEveryAsk` | iui/src/ui.rs:148-157 | with the corrected registration, n asks run the handler n times |
| `EventLoop.DispatchRunsInOrder` | ui/src/ui.rs:76-85 | live, distinct, consuming registrations run in queue order, each exactly once, and every box is freed afterwards |
| `EventLoop.QueueAllUi` | ui/src/ui.rs:76-85 | several `queue_main` calls in order keep the queue well formed |
| `EventLoop.QueueAllShape` | ui/src/ui.rs:76-85 | the calls append live, distinct, consuming registrations for exactly the given closures, in the given order |
| `EventLoop.QueueMainUiRunsInOrder` | ui/src/ui.rs:76-85 | queued closures run first-in first-out, each exactly once |
| `EventLoop.QueueMainIuiCallsNull` | iui/src/ui.rs:136-157 | a queued closure is never run, and neither is the should-quit handler: the toolkit calls a null function pointer |
| `EventLoop.CorrectedQueueMainRunsOnce` | iui/src/ui.rs:136-157 | registered as the `ui` crate does it, the queued closure runs exactly once and its box is freed, and the `ui` crate's should-quit handler runs at the first ask |
| `Executor.Release` | iui/src/concurrent.rs:110-112 | one reference fewer; the task is freed exactly when the count reaches zero; a freed task cannot be released again |
| `Executor.IncRefCount` | iui/src/concurrent.rs:105-108 | one reference more on a live task |
| `Executor.CloneWaker` | iui/src/concurrent.rs:90-93 | one reference and one held waker more; no other task or the queue changes |
| `Executor.DropWaker` | iui/src/concurrent.rs:110-112 | one reference and one held waker fewer; dangling exactly when the task was already freed |
| `Executor.Wake` | iui/src/concurrent.rs:95-98 | the held waker's reference moves into a newly queued poll: the count stays and the poll joins the back of the queue |
| `Executor.WakeByRef` | iui/src/concurrent.rs:100-103 | one reference more and a newly queued poll; the caller keeps its waker |
| `Executor.Spawn` | iui/src/concurrent.rs:39-67 | a new task with one reference, owned by a poll queued at the back; nothing is polled |
| `Executor.PollStep` | iui/src/concurrent.rs:59-79 | panics exactly when the front task is live and its count is not 1; dangles exactly when it was freed or an unshared task with no new references also has its closure released; otherwise the count changes by the kept clones and wake-by-ref calls minus the waker's drop and the optional closure release, the task is freed exactly at zero, other tasks are untouched, and wake-by-ref polls join the queue |
| `Executor.PollIgnoresAnswer` | iui/src/concurrent.rs:63-65 | whether the future answered Ready or Pending makes no difference |
| `Executor.SpawnBalanced` | iui/src/concurrent.rs:39-67 | spawning keeps every live task's count equal to its owners (queued polls plus held wakers) |
| `Executor.PollLeakedBalanced` | iui/src/concurrent.rs:59-79 | when the poll closure is not freed, a poll keeps the counts balanced |
| `Executor.PollReleasedDoubleFree` | iui/src/concurrent.rs:59-79 | when the poll closure's release is added to the waker's drop, an unshared task is released twice |
| `Executor.TwoQueuedPollsPanic` | iui/src/concurrent.rs:63 | two queued polls of one task make the first of them panic |
| `Executor.SelfWakeRepolls` | iui/src/concurrent.rs:59-103 | a future that wakes itself by reference is queued exactly once more and its next poll goes through |
| `Executor.StoredWakerPanicsNextPoll` | iui/src/concurrent.rs:59-103 | a future that keeps a waker clone and wakes itself makes its next poll panic |
| `Executor.CloneWakerBalanced` | iui/src/concurrent.rs:90-93 | cloning a waker keeps the counts balanced |
| `Executor.DropWakerBalanced` | iui/src/concurrent.rs:110-112 | dropping a held waker keeps the counts balanced |
| `Executor.WakeBalanced` | iui/src/concurrent.rs:95-98 | waking keeps the counts balanced |
| `Executor.WakeByRefBalanced` | iui/src/concurrent.rs:100-103 | waking by reference keeps the counts balanced |
| `Menus.MenuNew` | iui/src/menus.rs:91-101 | `None` exactly once menus are finalized, and then nothing changes; otherwise the new menu is recorded; the flag is never written |
| `Menus.AppendItem` | iui/src/menus.rs:106-116 | `None` exactly once menus are finalized, with nothing changed; otherwise the item goes at the end of that menu's entries; other menus' entries, the menu list and the flag are unchanged |
| `Menus.AppendCheckItem` | iui/src/menus.rs:121-131 | as for items, for a checkable item: `None` exactly once finalized, otherwise appended at the end of that menu's entries, other menus' entries unchanged |
| `Menus.AppendSeparator` | iui/src/menus.rs:134-136 | a separator goes at the end of the menu's entries whether or not menus are finalized; other menus' entries, the menu list and the flag are unchanged |
| `Menus.Finalize` | iui/src/menus.rs:11 | the flag becomes set and the menus and entries are kept |
| `Menus.MenuCallsKeepFlag` | iui/src/menus.rs:91-136 | no sequence of menu calls writes the flag, and after finalization no menu is created and only separators are added |
| `Menus.MenusNeverFinalize` | iui/src/menus.rs:11-136 | after any sequence of menu calls the flag is still clear, so a menu and an item are still created |
| `Menus.CannotChangeMenusLate` | iui/src/menus.rs:139-148 | before finalization a menu and an item are created; after it neither is |
| `Menus.OnMenuClicked` | iui/src/menus.rs:56-78 | the item's click slot holds the helper trampoline over a fresh live box with the callback; earlier boxes and other slots are unchanged and nothing runs |
| `Menus.MenuClickPassesPointers` | iui/src/menus.rs:56-78 | a click runs the callback once with the item and window pointers the toolkit passed |
| `Area.Bits` | iui/src/controls/area.rs:193-200 | a value below 16 whose four low bits are exactly the four flags |
| `Area.FromBits` | iui/src/controls/area.rs:193-200 | a set exactly for values below 16 |
| `Area.FromBitsOfBits` | iui/src/controls/area.rs:193-200 | decoding an encoded set gives the same set |
| `Area.BitsOfFromBits` | iui/src/controls/area.rs:193-200 | encoding a decoded value gives the same byte |
| `Area.DecodeModifiers` | iui/src/controls/area.rs:231 | only the low byte counts; succeeds exactly when it is below 16, with that byte's flags; otherwise panics |
| `Area.DecodeMouse` | iui/src/controls/area.rs:220-235 | panics exactly on unknown modifier bits; otherwise the integer fields are copied and the modifiers decoded |
| `Area.DecodeKey` | iui/src/controls/area.rs:246-256 | panics exactly when either modifier field has unknown bits; otherwise the key is cut to a byte, both modifier sets are decoded, and `up` means nonzero |
| `Area.UiDecodeMouse` | ui/src/controls/area.rs:235-251 | panics when the guard refuses, otherwise decodes as the `iui` crate does |
| `Area.UiDecodeKey` | ui/src/controls/area.rs:262-274 | panics when the guard refuses, otherwise decodes as the `iui` crate does |
| `Area.ModifierTruncation` | src/controls.rs:1225-1240 | 0x100 decodes to no flags and 0x101 to Ctrl, while 0x10 and -1 panic |
| `Area.KeyAnswer` | iui/src/controls/area.rs:12-20 | a handler that does not override `key_event` answers true |
| `Area.AreaNew` | iui/src/controls/area.rs:124-134 | the area wraps the pointer, and its event slot holds a borrowing trampoline over a fresh live box with the handler; earlier boxes and other slots are unchanged |
| `Area.UiAreaNew` | ui/src/controls/area.rs:151-162 | panics exactly when the guard refuses, otherwise builds the area as the `iui` crate does |
| `Area.MouseTrampoline` | iui/src/controls/area.rs:58-73 | panics exactly when the event does not decode; otherwise the handler's box fires with the area's pointer |
| `Area.KeyTrampoline` | iui/src/controls/area.rs:99-114 | panics exactly when the event does not decode; otherwise the handler's box fires and the toolkit gets 1 or 0 as the handler answered |
| `Area.OverridingHandlerDecidesKeys` | iui/src/controls/area.rs:99-114 | with an overriding `key_event`, every well-formed key event answers 1 or 0 exactly as the handler said |
| `Area.DefaultHandlerClaimsKeys` | iui/src/controls/area.rs:17-114 | with the default `key_event`, every well-formed key event answers 1, and the handler box survives any number of events |
| `ProgressBar.Clamp` | iui/src/controls/progressbar.rs:53-62 | what the bar can show: the same kind, and a percentage cut at 100 that changes exactly when it was above 100 |
| `ProgressBar.Encode` | iui/src/controls/progressbar.rs:53-62 | a value in -1..100, -1 exactly for indeterminate, the clamped percentage otherwise |
| `ProgressBar.Decode` | iui/src/controls/progressbar.rs:65-76 | panics exactly below -1; -1 is indeterminate; any other value is that percentage |
| `ProgressBar.DecodeEncode` | iui/src/controls/progressbar.rs:53-76 | reading back an encoded value gives the clamped value |
| `ProgressBar.EncodeDecode` | iui/src/controls/progressbar.rs:53-76 | every raw value `set_value` can produce decodes and encodes back to itself |
| `ProgressBar.SetValue` | iui/src/controls/progressbar.rs:53-62 | the bar's stored value is the encoded value; no other object or property changes |
| `ProgressBar.Value` | iui/src/controls/progressbar.rs:65-76 | the decoding of the stored value |
| `ProgressBar.SetDeterminate` | iui/src/controls/progressbar.rs:43-45 | the same as setting a determinate value |
| `ProgressBar.SetIndeterminate` | iui/src/controls/progressbar.rs:48-50 | the same as setting the indeterminate value |
| `ProgressBar.NewIndeterminate` | iui/src/controls/progressbar.rs:36-40 | a new bar whose stored value is -1 |
| `ProgressBar.ValueAfterSetValue` | iui/src/controls/progressbar.rs:53-76 | reading back after setting gives the clamped value and never panics; other bars read as before |
| `ProgressBar.NewIndeterminateReadsBack` | iui/src/controls/progressbar.rs:36-40 | a bar made indeterminate reads back as indeterminate |
| `Layout.IsStretchy` | iui/src/controls/layout.rs:9-14 | true exactly for the stretchy strategy |
| `Layout.VerticalBoxNew` | iui/src/controls/layout.rs:28-35 | a vertical box wrapper around the toolkit's pointer |
| `Layout.HorizontalBoxNew` | iui/src/controls/layout.rs:37-44 | the same wrapper a vertical box gets, around the horizontal box's pointer |
| `Layout.Append` | iui/src/controls/layout.rs:46-56 | panics with ChildHasParent exactly when the child has a parent; otherwise the child goes at the end of the container's children with the strategy's stretch flag, its parent becomes the container, other containers keep their children, every other control keeps its parent, and the properties are unchanged |
| `Layout.Padded` | iui/src/controls/layout.rs:58-60 | true exactly when the toolkit's value is nonzero |
| `Layout.SetPadded` | iui/src/controls/layout.rs:62-64 | the toolkit's value becomes 1 or 0; nothing else changes |
| `Layout.PaddedAfterSetPadded` | iui/src/controls/layout.rs:58-64 | reading back gives the value set, and other containers read as before |
| `Layout.SecondAppendPanics` | iui/src/controls/form.rs:25-47 | a child appended once cannot be appended again: the second append panics |
| `Layout.FormCount` | iui/src/controls/form.rs:50-52 | the number of children the form holds |
| `Layout.FormDelete` | iui/src/controls/form.rs:55-57 | one delete call with the form's pointer and the index unchanged; an index within the children removes exactly that child, keeping the others in order; it loses its parent, every other control keeps its parent, and the count drops by one; an index outside leaves the store as it was; other containers keep their children and the properties are unchanged |
| `Layout.FormAppendCounts` | iui/src/controls/form.rs:25-52 | each successful append adds one to the form's count |
| `Layout.FormDeleteUndoesAppend` | iui/src/controls/form.rs:25-57 | deleting the control just appended restores the form's children and frees the child to be appended again |
| `IdsPool.NewPool` | iui/src/ids_pool.rs:199-219 | one empty map per listed control type, and no errors |
| `IdsPool.UiNew` | iui/src/ids_pool.rs:147-166 | the control is always built; an absent id is bound to it in that type's map; a present id keeps its old binding and one error is logged; other types are untouched |
| `IdsPool.UiGet` | iui/src/ids_pool.rs:173-180 | the stored control exactly when the id is bound for that type, else `None` |
| `IdsPool.UiMustGet` | iui/src/ids_pool.rs:188-195 | panics exactly when the id is unbound; otherwise what `ui_get!` returns |
| `IdsPool.FirstRegistrationWins` | iui/src/ids_pool.rs:147-195 | a second `ui_new!` with the same id and type keeps the first control and logs one error |
| `IdsPool.IdsScopedPerType` | iui/src/ids_pool.rs:147-180 | the same id under two types names two controls, with no error |
| `IdsPool.FreshPoolMisses` | iui/src/ids_pool.rs:173-219 | in a fresh pool every lookup misses and every must-get panics |

## Left out

- Floating point: the mouse coordinates, area sizes and all drawing (`draw`, `draw/*`, `image`) are not modelled.
- Thin widget wrappers that only pass a value to one toolkit call are not modelled. These are the entries, checkboxes, combo boxes, pickers, sliders and radio buttons, and their text accessors.
- Strings crossing the boundary: the `CString::new(..).unwrap()` panic on an interior NUL is not modelled, and neither is lossy UTF-8 conversion. `Lifecycle.InitErrorText` takes the UTF-8 validity as a flag.
- Threads, atomics, `Send`, `Pin` and the memory ordering of the flag are not modelled; the model runs on the UI thread only.
- `ffi_utils::ensure_initialized`, the `ui` crate's `ffi_utils::set_initialized`, `to_heap_ptr`/`from_void_ptr` and `Context::parent_of` are not part of this model. They are parameters or plain reads of the store, as described above.
- The `ui` crate's `ffi_utils::void_void_callback` is not part of this model either. It is taken to match the `iui` crate's `void_void_callback` at iui/src/ffi_tools.rs:37-39, which transmutes the data pointer into an owned box, runs the closure and frees the box. `EventLoop.OnShouldQuitUi` and `EventLoop.QueueMainUi` rest on that.
- The `ui` crate has two copies of its window module. ui/src/lib.rs compiles `window`, while ui/src/ui.rs imports `Window` from `windows`. Their `Window::new`, `on_closing` and `destroy_all_windows` agree on everything modelled: the guard, the push onto `WINDOWS`, the consuming closing trampoline and the teardown. So the model has one `ui` window registry, and each row cites the file whose lines it models.
- Nothing in the source writes `HAS_FINALIZED_MENUS`; the corrected write is the transition `Menus.Finalize` (see Findings).
- Time itself is not modelled: a sleep is an event in the loop's log that carries its length, and `uiMainStep(1)` waiting for an event is its `wait` flag.
- Window titles, sizes, child setting and the menubar flag are not modelled; only the registry, the closing handler and the margins are.
- Form labels are not modelled; `Form::append` is the shared append with its parent check.
- `Layout.FormCount`: the `i32` width of the toolkit's count is not modelled, because the child count is unbounded in the model.
- `EventLoop.Drive` requires that some answer differs from 1, so it only models runs that end. A run the toolkit never stops is not modelled.
- `EventLoop.Run`: only runs that end, as for `Drive`.
- `EventLoop.RunDelay`: only runs that end, as for `Drive`.
- `ProgressBar.Value` requires the stored value to fit an `i32`, which is the width the toolkit returns.
- `Lifecycle.UiCrateInit`: `ffi_utils::set_initialized` is not part of this model, so whether it panics is the parameter `setOk`, and its panic is recorded as `AlreadyInitialized`. The model does not say when that happens.
- `Layout.FormDelete`: what the toolkit does with an index outside the form's children is not part of this model; the store is left as it was in that case.
- `EventLoop.DelayNanos`: whether overflow checks are compiled in is the parameter `checked`; debug builds have them and release builds by default do not.
- `Executor.PollStep`: `from_void_ptr`'s ownership of the poll closure is a parameter (`closureReleased`), so both outcomes are modelled and neither is claimed as the code's behaviour.

## Findings

| source | as written | input that shows it | evidently intended | confidence | as-written member | corrected member |
|---|---|---|---|---|---|---|
| iui/src/ui.rs:136-145 | `queue_main` leaks the closure box but passes `None` as the function pointer | any `queue_main(c)`, then the toolkit draining its queue | the closure runs once on the main thread, through `void_void_callback` as in the `ui` crate | medium, not executed | `EventLoop.QueueMainIuiCallsNull` | `EventLoop.QueueMainUi` |
| iui/src/ui.rs:148-157 | `on_should_quit` passes `None` as the function pointer as well | any `on_should_quit(c)`, then the toolkit asking whether to quit | the handler runs every time the toolkit asks | medium, not executed | `EventLoop.QueueMainIuiCallsNull` | `EventLoop.OnShouldQuitBorrowed` |
| ui/src/ui.rs:89-98 | the `ui` crate's `on_should_quit` registers the consuming `void_void_callback`, which frees the box at the first ask | `on_should_quit(c)`, then the toolkit asking twice | the handler runs every time the toolkit asks | low: rests on the `ui` crate's `void_void_callback` matching iui/src/ffi_tools.rs:37-39; not executed | `EventLoop.UiShouldQuitFreedAfterOneAsk` | `EventLoop.OnShouldQuitBorrowed` |
| iui/src/controls/window.rs:90-112 | the wrapper closure is not `move`, so it borrows `callback` from the frame of `on_closing`, which has returned when the toolkit calls it; the trampoline also frees the box | `Window::new`, or `on_closing(c)`, then one close request on that window | the handler runs at every close request that keeps the window open | high, not executed | `Windows.CloseRequestDangles` | `Windows.OnClosingBorrowed` |
| ui/src/window.rs:82-88 | the `ui` crate frees the closing box even when its callback answers false | `on_closing` with a callback answering false, then two close requests | the box survives while the window stays open | high, not executed | `Windows.UiKeptOpenThenUseAfterFree` | `Windows.OnClosingBorrowed` |
| iui/src/menus.rs:11-136 | nothing writes `HAS_FINALIZED_MENUS`, so `Menu::new` and `append_item` still succeed after `Window::new` | the crate's `cannot_change_menus_late` test: `Menu::new` after `Window::new` returns `Some` | `Menu::new` and `append_item` return `None` once a window exists, as that test expects | medium, not executed | `Menus.MenusNeverFinalize` | `Menus.Finalize` |
| iui/src/controls/window.rs:178-183 | `Window::destroy` does not remove the window from `WINDOWS`, so teardown destroys it again | two windows, `destroy` on the first, then dropping the last `UI` | each window is destroyed exactly once | high, not executed | `Windows.DestroyedWindowDestroyedAgain` | `Windows.DestroyWindowUnregistered` |
| iui/src/ui.rs:220-227 | `run_delay` steps without pausing until the loop ends and only then sleeps once, although its documentation promises the callback about every `delay_ms` | any run of two or more steps: no sleep separates them | a sleep of the delay after every step | high, not executed | `EventLoop.RunDelay` | `EventLoop.RunDelayPaced` |
| iui/src/ui.rs:226 | `delay_ms * 1000000` is a `u32` product, which overflows above 4294 ms | `run_delay(ctx, 4295)`: a panic with overflow checks, a 32704 ns sleep without them | the delay in nanoseconds, computed without overflow | high, not executed | `EventLoop.LongDelayOverflows` | `EventLoop.RunDelayPaced` |

The property the corrected members are meant to have is proved in:

- `EventLoop.CorrectedQueueMainRunsOnce`, for the `queue_main` row. The corrected form there is the `ui` crate's registration through `void_void_callback`;
- `EventLoop.CorrectedShouldQuitAnswersEveryAsk`, for both `on_should_quit` rows;
- `Menus.CannotChangeMenusLate`, for the menus row;
- `Windows.BorrowedClosingSurvives`, for both closing-handler rows;
- `Windows.EachWindowDestroyedOnce`, for the destroy row;
- `EventLoop.RunDelayPaced` itself, for both `run_delay` rows: its contract says every callback tick is directly followed by a sleep of `delay_ms * 1000000` nanoseconds, computed on unbounded integers.
