/** Buttons, labels and entries: event registration through the borrowing
    trampoline. Their constructors are `Handles.FromUiControl`. */
module Widgets {
  import opened Wrappers
  import opened Foreign
  import opened Callbacks
  import opened Handles

  /** `Button::on_clicked` of the `iui` crate: the closure is double-boxed and
      leaked, and registered with the trampoline that borrows it. */
  function OnClicked(b: Bridge, button: Wrapper, c: Closure): (r: Bridge)
    requires Valid(b)
    ensures Valid(r)
    ensures (button.ptr, Clicked) in r.slots
    ensures r.slots[(button.ptr, Clicked)].tramp == Borrowing
    ensures r.slots[(button.ptr, Clicked)].data in r.boxes
    ensures r.boxes[r.slots[(button.ptr, Clicked)].data] == c
    ensures forall a :: a in b.boxes ==> a in r.boxes
    ensures r.fired == b.fired
    ensures RegisteredOver(b, r, button.ptr, Clicked, c, Borrowing)
  {
    Register(b, button.ptr, Clicked, c, Borrowing)
  }

  /** The toolkit reporting a click on the button at `p`; the trampoline builds
      a `Button` around exactly that pointer. */
  function Click(b: Bridge, p: Ptr): Fired
  {
    Trigger(b, p, Clicked, [p])
  }

  /** Registering on a button and clicking through any clone of it runs the
      closure exactly once per click, and the box survives for the next click. */
  lemma ClickThroughClone(b: Bridge, button: Wrapper, c: Closure, n: nat)
    requires Valid(b)
    ensures Click(OnClicked(b, button, c), CloneWrapper(button).ptr).Fired?
    ensures Click(OnClicked(b, button, c), CloneWrapper(button).ptr).bridge.fired
            == b.fired + [Invocation(c, [button.ptr])]
    ensures TriggerTimes(OnClicked(b, button, c), CloneWrapper(button).ptr, Clicked, [button.ptr], n).Fired?
    ensures TriggerTimes(OnClicked(b, button, c), CloneWrapper(button).ptr, Clicked, [button.ptr], n).bridge.fired
            == b.fired + Repeat(Invocation(c, [button.ptr]), n)
  {
    BorrowedFiresEveryTime(OnClicked(b, button, c), button.ptr, Clicked, [button.ptr], n);
  }

  /** Registering a second closure on the same button replaces the first in the
      toolkit, but the first box stays allocated with nothing referring to it. */
  lemma ReRegistrationLeaks(b: Bridge, button: Wrapper, c1: Closure, c2: Closure)
    requires Valid(b)
    ensures var b1 := OnClicked(b, button, c1);
            var a1 := b1.slots[(button.ptr, Clicked)].data;
            var b2 := OnClicked(b1, button, c2);
            && a1 in b2.boxes
            && (forall k :: k in b2.slots ==> b2.slots[k].data != a1)
            && Click(b2, button.ptr).bridge.fired == b.fired + [Invocation(c2, [button.ptr])]
  {
  }

  /** Event registration in the `ui` crate (`Button::on_clicked`,
      `Entry::on_changed`, and the other widgets): `ensure_initialized`, then the
      same leaked box and borrowing trampoline. The trampolines wrap the incoming
      pointer and `forget` the wrapper, which the model shows as no effect. */
  function UiOnEvent(guard: bool, b: Bridge, w: Wrapper, s: Slot, c: Closure): (r: Outcome<Bridge>)
    requires Valid(b)
    ensures r.Panic? <==> !guard
    ensures r.Ok? ==> Valid(r.value) && (w.ptr, s) in r.value.slots
    ensures r.Ok? ==> r.value.slots[(w.ptr, s)].tramp == Borrowing
    ensures r.Ok? ==> RegisteredOver(b, r.value, w.ptr, s, c, Borrowing)
    ensures r.Ok? ==> Trigger(r.value, w.ptr, s, [w.ptr]).Fired?
    ensures r.Ok? ==> Trigger(r.value, w.ptr, s, [w.ptr]).bridge.fired == b.fired + [Invocation(c, [w.ptr])]
  {
    if !guard then Panic(NotInitialized) else Ok(Register(b, w.ptr, s, c, Borrowing))
  }
}
