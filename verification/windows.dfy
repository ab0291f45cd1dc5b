/** Top-level windows and the thread-local `WINDOWS` registry every window
    constructor appends to and teardown drains. The module also holds the
    runtime record the lifecycle operations work on. */
module Windows {
  import opened Wrappers
  import opened Foreign
  import opened Callbacks
  import opened Handles

  /** The bindings' global state on the UI thread: the initialized flag, the
      strong count of the `Rc<UIToken>` shared by all `UI` clones (0 when there is
      no token), the `WINDOWS` list, the callback boxes, the toolkit's object
      state, and the calls made so far. */
  datatype World = World(
    initialized: bool,
    tokenRefs: nat,
    windows: seq<Ptr>,
    bridge: Bridge,
    store: Store,
    trace: seq<Call>)

  /** The state before anything has run. */
  const Start := World(false, 0, [], EmptyBridge, EmptyStore, [])

  ghost predicate Good(w: World)
  {
    Callbacks.Valid(w.bridge)
  }

  /** One foreign destroy call per pointer, in order. */
  function DestroyCalls(ws: seq<Ptr>): (r: seq<Call>)
    ensures |r| == |ws|
    ensures forall i :: 0 <= i < |ws| ==> r[i] == UiControlDestroy(ws[i])
  {
    if ws == [] then [] else [UiControlDestroy(ws[0])] + DestroyCalls(ws[1..])
  }

  /** Each pointer is destroyed exactly as many times as it occurs in the list. */
  lemma {:induction false} CountDestroyCalls(ws: seq<Ptr>, p: Ptr)
    ensures Count(DestroyCalls(ws), UiControlDestroy(p)) == Count(ws, p)
  {
    if ws != [] {
      assert DestroyCalls(ws)[1..] == DestroyCalls(ws[1..]);
      CountDestroyCalls(ws[1..], p);
    }
  }

  lemma DestroyCallsAppend(xs: seq<Ptr>, ys: seq<Ptr>)
    ensures DestroyCalls(xs + ys) == DestroyCalls(xs) + DestroyCalls(ys)
  {
    assert DestroyCalls(xs + ys) == DestroyCalls(xs) + DestroyCalls(ys);
  }

  /** `destroy_all_windows` (identical in the `iui` and `ui` crates): drains the
      list and destroys each entry once, in insertion order, leaving it empty. */
  function DestroyAllWindows(w: World): (r: World)
    ensures r.windows == []
    ensures r.trace == w.trace + DestroyCalls(w.windows)
    ensures r == w.(windows := [], trace := r.trace)
  {
    w.(windows := [], trace := w.trace + DestroyCalls(w.windows))
  }

  /** `Window::new` of the `iui` crate: the toolkit's pointer is wrapped, a clone
      is pushed onto `WINDOWS`, the default closing handler (which calls `quit`)
      is registered through `on_closing`, and margins are switched on. The quit
      closure and the `UI` clone it owns are dropped when `on_closing` returns,
      so the token count is unchanged and the registered box is stale. */
  function WindowNew(w: World, p: Ptr): (r: (World, Wrapper))
    requires Good(w)
    ensures Good(r.0)
    ensures r.1 == Wrapper("Window", p)
    ensures r.0.windows == w.windows + [p]
    ensures (p, Closing) in r.0.bridge.slots
    ensures r.0.bridge.slots[(p, Closing)].tramp == Consuming
    ensures r.0.bridge.slots[(p, Closing)].data in r.0.bridge.boxes
    ensures r.0.bridge.boxes[r.0.bridge.slots[(p, Closing)].data] == QuitOnClose
    ensures r.0.bridge.slots[(p, Closing)].data in r.0.bridge.stale
    ensures GetInt(r.0.store, p, Margined) == 1
    ensures r.0.trace == w.trace && r.0.initialized == w.initialized && r.0.tokenRefs == w.tokenRefs
    ensures forall q: Ptr, pr: Prop :: (q, pr) != (p, Margined) ==> GetInt(r.0.store, q, pr) == GetInt(w.store, q, pr)
    ensures r.0.store.parent == w.store.parent && r.0.store.children == w.store.children
    ensures Callbacks.RegisteredOver(w.bridge, r.0.bridge.(stale := w.bridge.stale), p, Closing, QuitOnClose, Consuming)
    ensures r.0.bridge.stale == w.bridge.stale + {r.0.bridge.slots[(p, Closing)].data}
  {
    var win := FromUiControl("Window", p);
    var w1 := w.(windows := w.windows + [CloneWrapper(win).ptr]);
    var w2 := OnClosing(w1, win, QuitOnClose);
    (w2.(store := SetInt(w2.store, p, Margined, BoolToInt(true))), win)
  }

  /** `Window::on_closing` of the `iui` crate: the user callback is wrapped in a
      closure that calls it and returns false; that wrapper is boxed, leaked,
      and registered with a trampoline that takes the box back as owned. The
      wrapper is not `move`: it borrows `callback`, a parameter of `on_closing`
      that is dropped when the call returns, so the box is stale from the start. */
  function OnClosing(w: World, win: Wrapper, c: Closure): (r: World)
    requires Good(w)
    ensures Good(r)
    ensures (win.ptr, Closing) in r.bridge.slots && r.bridge.slots[(win.ptr, Closing)].tramp == Consuming
    ensures r.bridge.slots[(win.ptr, Closing)].data in r.bridge.boxes
    ensures r.bridge.boxes[r.bridge.slots[(win.ptr, Closing)].data] == c
    ensures r.bridge.stale == w.bridge.stale + {r.bridge.slots[(win.ptr, Closing)].data}
    ensures r == w.(bridge := r.bridge)
    ensures Callbacks.RegisteredOver(w.bridge, r.bridge.(stale := w.bridge.stale), win.ptr, Closing, c, Consuming)
  {
    var b := Register(w.bridge, win.ptr, Closing, c, Consuming);
    w.(bridge := b.(stale := b.stale + {b.slots[(win.ptr, Closing)].data}))
  }

  /** The toolkit asking whether the window at `p` may close, and the `i32` the
      trampoline answers with. */
  datatype CloseAnswer = CloseAnswer(fired: Fired, code: i32)

  /** The `iui` closing trampoline: the wrapper always returns false, so the
      answer is 0 ("keep the window open") whatever the user callback did. */
  function CloseRequest(w: World, p: Ptr): (r: CloseAnswer)
    ensures r.code == 0
    ensures r.fired == Trigger(w.bridge, p, Closing, [p])
  {
    CloseAnswer(Trigger(w.bridge, p, Closing, [p]), BoolToInt(false))
  }

  /** As written: already the first close request of a new window, and of any
      window given a handler through `on_closing`, calls a wrapper whose
      captured callback lived in a returned frame; the handler never runs. */
  lemma CloseRequestDangles(w: World, p: Ptr, win: Wrapper, c: Closure)
    requires Good(w)
    ensures var w1 := WindowNew(w, p).0;
            CloseRequest(w1, p).fired == DanglingCapture
    ensures CloseRequest(OnClosing(w, win, c), win.ptr).fired == DanglingCapture
  {
  }

  /** Corrected closing registration: the wrapper is a `move` closure that owns
      the callback, and the trampoline borrows the box, as the click
      trampolines do. The box holds the callback itself and is not stale. */
  function OnClosingBorrowed(w: World, win: Wrapper, c: Closure): (r: World)
    requires Good(w)
    ensures Good(r)
    ensures (win.ptr, Closing) in r.bridge.slots && r.bridge.slots[(win.ptr, Closing)].tramp == Borrowing
    ensures r.bridge.slots[(win.ptr, Closing)].data in r.bridge.boxes
    ensures r.bridge.boxes[r.bridge.slots[(win.ptr, Closing)].data] == c
    ensures r.bridge.slots[(win.ptr, Closing)].data !in r.bridge.stale
    ensures r == w.(bridge := r.bridge)
    ensures Callbacks.RegisteredOver(w.bridge, r.bridge, win.ptr, Closing, c, Borrowing)
  {
    w.(bridge := Register(w.bridge, win.ptr, Closing, c, Borrowing))
  }

  /** With the corrected registration every close request runs the handler,
      however many the toolkit sends. */
  lemma BorrowedClosingSurvives(w: World, win: Wrapper, c: Closure, n: nat)
    requires Good(w)
    ensures var w1 := OnClosingBorrowed(w, win, c);
            && TriggerTimes(w1.bridge, win.ptr, Closing, [win.ptr], n).Fired?
            && TriggerTimes(w1.bridge, win.ptr, Closing, [win.ptr], n).bridge.fired
               == w.bridge.fired + Repeat(Invocation(c, [win.ptr]), n)
  {
    var w1 := OnClosingBorrowed(w, win, c);
    BorrowedFiresEveryTime(w1.bridge, win.ptr, Closing, [win.ptr], n);
  }

  /** `Window::destroy` of the `iui` crate: one foreign destroy call; the window
      stays in `WINDOWS`. */
  function DestroyWindow(w: World, win: Wrapper): (r: World)
    ensures r.trace == w.trace + [UiControlDestroy(win.ptr)]
    ensures r == w.(trace := r.trace)
  {
    w.(trace := Destroy(w.trace, IntoControl(win)))
  }

  /** As written: create two windows, destroy the first explicitly, and tear
      down: the first window is destroyed twice. */
  lemma DestroyedWindowDestroyedAgain(w: World, p1: Ptr, p2: Ptr)
    requires Good(w) && w.windows == [] && w.trace == []
    requires p1 != p2
    ensures var w1 := WindowNew(w, p1).0;
            var w2 := WindowNew(w1, p2).0;
            var w3 := DestroyAllWindows(DestroyWindow(w2, Wrapper("Window", p1)));
            Count(w3.trace, UiControlDestroy(p1)) == 2 && Count(w3.trace, UiControlDestroy(p2)) == 1
  {
    var w1 := WindowNew(w, p1).0;
    var w2 := WindowNew(w1, p2).0;
    assert w2.windows == [p1, p2] && w2.trace == [];
    var w3 := DestroyAllWindows(DestroyWindow(w2, Wrapper("Window", p1)));
    assert w3.trace == [UiControlDestroy(p1)] + DestroyCalls([p1, p2]);
    assert DestroyCalls([p1, p2]) == [UiControlDestroy(p1), UiControlDestroy(p2)];
    var t := [UiControlDestroy(p1), UiControlDestroy(p1), UiControlDestroy(p2)];
    assert w3.trace == t;
    assert t[1..] == [UiControlDestroy(p1), UiControlDestroy(p2)];
    assert t[1..][1..] == [UiControlDestroy(p2)];
    assert t[1..][1..][1..] == [];
    assert Count(t[1..][1..], UiControlDestroy(p1)) == 0;
    assert Count(t[1..][1..], UiControlDestroy(p2)) == 1;
    assert Count(t, UiControlDestroy(p1)) == 2;
    assert Count(t, UiControlDestroy(p2)) == 1;
  }

  /** `ws` without any occurrence of `p`, order kept. */
  function Without(ws: seq<Ptr>, p: Ptr): (r: seq<Ptr>)
    ensures Count(r, p) == 0
    ensures forall q :: q != p ==> Count(r, q) == Count(ws, q)
    ensures Count(ws, p) == 0 ==> r == ws
  {
    if ws == [] then []
    else if ws[0] == p then Without(ws[1..], p)
    else [ws[0]] + Without(ws[1..], p)
  }

  /** Removing `p` keeps the order of what remains: removing from a
      concatenation is removing from each part, and a single entry stays
      exactly when it is not `p`. */
  lemma {:induction false} WithoutKeepsOrder(xs: seq<Ptr>, ys: seq<Ptr>, p: Ptr, x: Ptr)
    ensures Without(xs + ys, p) == Without(xs, p) + Without(ys, p)
    ensures Without([x], p) == (if x == p then [] else [x])
    decreases |xs|
  {
    if xs == [] {
      assert xs + ys == ys;
    } else {
      assert (xs + ys)[0] == xs[0];
      assert (xs + ys)[1..] == xs[1..] + ys;
      WithoutKeepsOrder(xs[1..], ys, p, x);
    }
  }

  /** Corrected destroy: the window also leaves `WINDOWS`, so teardown does not
      destroy it again. */
  function DestroyWindowUnregistered(w: World, win: Wrapper): (r: World)
    ensures r.trace == w.trace + [UiControlDestroy(win.ptr)]
    ensures Count(r.windows, win.ptr) == 0
    ensures forall q :: q != win.ptr ==> Count(r.windows, q) == Count(w.windows, q)
    ensures r.windows == Without(w.windows, win.ptr)
    ensures r == w.(windows := r.windows, trace := r.trace)
  {
    w.(windows := Without(w.windows, win.ptr), trace := Destroy(w.trace, IntoControl(win)))
  }

  /** With the corrected destroy, two windows, one destroyed explicitly, then
      teardown: each window is destroyed exactly once. */
  lemma EachWindowDestroyedOnce(w: World, p1: Ptr, p2: Ptr)
    requires Good(w) && w.windows == [] && w.trace == []
    requires p1 != p2
    ensures var w1 := WindowNew(w, p1).0;
            var w2 := WindowNew(w1, p2).0;
            var w3 := DestroyAllWindows(DestroyWindowUnregistered(w2, Wrapper("Window", p1)));
            Count(w3.trace, UiControlDestroy(p1)) == 1 && Count(w3.trace, UiControlDestroy(p2)) == 1
  {
    var w1 := WindowNew(w, p1).0;
    var w2 := WindowNew(w1, p2).0;
    var d := DestroyWindowUnregistered(w2, Wrapper("Window", p1));
    var w3 := DestroyAllWindows(d);
    assert w3.trace == [UiControlDestroy(p1)] + DestroyCalls(d.windows);
    CountAppend([UiControlDestroy(p1)], DestroyCalls(d.windows), UiControlDestroy(p1));
    CountAppend([UiControlDestroy(p1)], DestroyCalls(d.windows), UiControlDestroy(p2));
    CountDestroyCalls(d.windows, p1);
    CountDestroyCalls(d.windows, p2);
    assert w2.windows == [p1, p2];
    assert Count(w2.windows, p2) == 1;
  }

  /** `open_file` / `save_file` of the `iui` crate: `None` exactly when the
      dialog returned a null pointer, otherwise the path the dialog wrote. */
  function FileDialog(raw: Ptr, text: string): (r: Option<string>)
    ensures r.None? <==> raw == Null
    ensures r.Some? ==> r.value == text
  {
    if raw == Null then None else Some(text)
  }

  /** Two dialogs give the same answer exactly when both were cancelled or both
      wrote the same path: a cancelled dialog never looks like a chosen file. */
  lemma FileDialogAnswers(raw1: Ptr, text1: string, raw2: Ptr, text2: string)
    ensures FileDialog(raw1, text1) == FileDialog(raw2, text2)
            <==> (raw1 == Null && raw2 == Null) || (raw1 != Null && raw2 != Null && text1 == text2)
  {
  }

  /** `Window::new` of the `ui` crate (both `window.rs` and `windows.rs`):
      `ensure_initialized`, then a clone is pushed onto `WINDOWS`. No closing
      handler is installed and the margins are left alone. */
  function UiWindowNew(guard: bool, w: World, p: Ptr): (r: Outcome<(World, Wrapper)>)
    ensures r.Panic? <==> !guard
    ensures r.Ok? ==> r.value.1.ptr == p
    ensures r.Ok? ==> r.value.0 == w.(windows := w.windows + [p])
  {
    if !guard then Panic(NotInitialized)
    else
      var win := FromUiControl("Window", p);
      Ok((w.(windows := w.windows + [CloneWrapper(win).ptr]), win))
  }

  /** `Window::on_closing` of the `ui` crate: `ensure_initialized`, then the
      callback is double-boxed, leaked, and registered with a trampoline that
      takes the box back as owned. */
  function UiOnClosing(guard: bool, w: World, win: Wrapper, c: Closure): (r: Outcome<World>)
    requires Good(w)
    ensures r.Panic? <==> !guard
    ensures r.Ok? ==> Good(r.value) && r.value == w.(bridge := r.value.bridge)
    ensures r.Ok? ==> (win.ptr, Closing) in r.value.bridge.slots
    ensures r.Ok? ==> r.value.bridge.slots[(win.ptr, Closing)].tramp == Consuming
    ensures r.Ok? ==> r.value.bridge.slots[(win.ptr, Closing)].data in r.value.bridge.boxes
    ensures r.Ok? ==> r.value.bridge.boxes[r.value.bridge.slots[(win.ptr, Closing)].data] == c
    ensures r.Ok? ==> r.value.bridge.fired == w.bridge.fired
    ensures r.Ok? ==> Callbacks.RegisteredOver(w.bridge, r.value.bridge, win.ptr, Closing, c, Consuming)
  {
    if !guard then Panic(NotInitialized)
    else Ok(w.(bridge := Register(w.bridge, win.ptr, Closing, c, Consuming)))
  }

  /** The `ui` crate's closing trampoline answers with the callback's own bool. */
  function UiCloseRequest(w: World, p: Ptr, answer: bool): (r: CloseAnswer)
    ensures r.code == (if answer then 1 else 0)
    ensures r.fired == Trigger(w.bridge, p, Closing, [p])
  {
    CloseAnswer(Trigger(w.bridge, p, Closing, [p]), BoolToInt(answer))
  }

  /** As written in the `ui` crate: a callback that answers false keeps the
      window open, but its box is already freed, so the next close request
      reads freed memory. */
  lemma UiKeptOpenThenUseAfterFree(w: World, win: Wrapper, c: Closure)
    requires Good(w)
    ensures var w1 := UiOnClosing(true, w, win, c).value;
            && UiCloseRequest(w1, win.ptr, false).code == 0
            && UiCloseRequest(w1, win.ptr, false).fired.Fired?
            && UiCloseRequest(w1.(bridge := UiCloseRequest(w1, win.ptr, false).fired.bridge), win.ptr, false)
                 .fired.UseAfterFree?
  {
  }
}
