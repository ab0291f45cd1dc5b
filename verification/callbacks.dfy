/** The callback bridge: closures are boxed twice, leaked, and handed to the
    toolkit as an opaque data pointer next to a trampoline. The toolkit later
    calls the trampoline with that pointer, and the trampoline either borrows
    the box (it can fire again) or takes it back as an owned `Box` (it is freed
    when the call returns). */
module Callbacks {
  import opened Foreign

  /** The address of a leaked closure box. */
  type Addr = nat

  /** A boxed closure: a user closure, whose behaviour the bridge never looks at,
      or the default closing handler `Window::new` installs, which calls `quit`. */
  datatype Closure = User(id: nat) | QuitOnClose

  /** How a trampoline treats the box behind its data pointer. */
  datatype Trampoline =
    | Borrowing               // transmute to `&mut Box<..>`: the box stays alive
    | Consuming               // transmute to `Box<Box<..>>`: the box is freed after the call
    | Missing                 // `None` registered as the function pointer
    | Helper(releases: bool)  // through `from_void_ptr`; whether it frees the box is a parameter

  predicate Frees(t: Trampoline)
  {
    t.Consuming? || (t.Helper? && t.releases)
  }

  /** What the toolkit keeps for one registration: the function and the data pointer. */
  datatype Registration = Registration(tramp: Trampoline, data: Addr)

  /** The event slots a foreign object carries one handler each for. */
  datatype Slot = Clicked | Closing | Changed | MenuClicked | AreaEvents

  /** One invocation of a boxed closure, with the foreign object pointers the
      trampoline wrapped up and passed to it. */
  datatype Invocation = Invocation(closure: Closure, args: seq<Ptr>)

  /** The live (allocated) boxes, the next fresh address, the toolkit's
      registrations, and the closures run so far, in order. A box in `stale`
      holds a non-`move` wrapper whose captured closure lived in a stack frame
      that has since returned: the box is allocated, but calling it reads that
      frame. */
  datatype Bridge = Bridge(
    boxes: map<Addr, Closure>,
    next: Addr,
    slots: map<(Ptr, Slot), Registration>,
    fired: seq<Invocation>,
    stale: set<Addr>)

  const EmptyBridge := Bridge(map[], 0, map[], [], {})

  /** Every allocated box, every registered data pointer and every stale box
      lies below the next fresh address. */
  ghost predicate Valid(b: Bridge)
  {
    && (forall a :: a in b.boxes ==> a < b.next)
    && (forall k :: k in b.slots ==> b.slots[k].data < b.next)
    && (forall a :: a in b.stale ==> a < b.next)
  }

  /** `r` is `b` after registering `c` with `t` on slot `s` of the object at `p`:
      the slot holds `t` and a fresh box holding `c`, every earlier box stays
      allocated unchanged, every other slot keeps its registration, and nothing
      runs. */
  ghost predicate RegisteredOver(b: Bridge, r: Bridge, p: Ptr, s: Slot, c: Closure, t: Trampoline)
  {
    && (p, s) in r.slots && r.slots[(p, s)].tramp == t
    && r.slots[(p, s)].data !in b.boxes
    && r.slots[(p, s)].data in r.boxes && r.boxes[r.slots[(p, s)].data] == c
    && (forall a :: a in b.boxes ==> a in r.boxes && r.boxes[a] == b.boxes[a])
    && (forall k :: k != (p, s) && k in b.slots ==> k in r.slots && r.slots[k] == b.slots[k])
    && r.fired == b.fired
    && r.slots[(p, s)].data !in r.stale && r.stale == b.stale
  }

  /** `Box::new(Box::new(closure))` then `mem::forget`: a fresh box that nothing
      on the host side will free. */
  function Leak(b: Bridge, c: Closure): (r: (Bridge, Addr))
    requires Valid(b)
    ensures Valid(r.0)
    ensures r.1 !in b.boxes
    ensures forall k :: k in b.slots ==> b.slots[k].data != r.1
    ensures r.0.boxes == b.boxes[r.1 := c]
    ensures r.0.slots == b.slots && r.0.fired == b.fired
    ensures r.1 !in b.stale && r.0.stale == b.stale
  {
    (b.(boxes := b.boxes[b.next := c], next := b.next + 1), b.next)
  }

  /** A foreign `on_event(ptr, trampoline, data)` call with a freshly leaked box.
      It overwrites the slot's previous registration, and the previous box stays
      allocated: it leaks. */
  function Register(b: Bridge, p: Ptr, s: Slot, c: Closure, t: Trampoline): (r: Bridge)
    requires Valid(b)
    ensures Valid(r)
    ensures (p, s) in r.slots && r.slots[(p, s)].tramp == t
    ensures r.slots[(p, s)].data !in b.boxes
    ensures forall k :: k in b.slots ==> b.slots[k].data != r.slots[(p, s)].data
    ensures r.slots[(p, s)].data in r.boxes && r.boxes[r.slots[(p, s)].data] == c
    ensures forall a :: a in b.boxes ==> a in r.boxes && r.boxes[a] == b.boxes[a]
    ensures forall k :: k != (p, s) && k in b.slots ==> k in r.slots && r.slots[k] == b.slots[k]
    ensures r.fired == b.fired
    ensures RegisteredOver(b, r, p, s, c, t)
  {
    var (b1, a) := Leak(b, c);
    b1.(slots := b1.slots[(p, s) := Registration(t, a)])
  }

  /** The outcome of the toolkit calling a trampoline: it ran, or it read a freed
      box, or the live box's closure read a returned stack frame, or the
      registered function pointer was null. */
  datatype Fired = Fired(bridge: Bridge) | UseAfterFree | DanglingCapture | NullCall

  /** The trampoline of `reg` called with `reg`'s data pointer and the object
      pointers `args`. */
  function Fire(b: Bridge, reg: Registration, args: seq<Ptr>): (r: Fired)
    ensures r.NullCall? <==> reg.tramp.Missing?
    ensures r.UseAfterFree? <==> !reg.tramp.Missing? && reg.data !in b.boxes
    ensures r.DanglingCapture? <==> !reg.tramp.Missing? && reg.data in b.boxes && reg.data in b.stale
    ensures r.Fired? ==> r.bridge.fired == b.fired + [Invocation(b.boxes[reg.data], args)]
    ensures r.Fired? ==> (reg.data in r.bridge.boxes <==> !Frees(reg.tramp))
    ensures r.Fired? ==> forall a :: a != reg.data ==> (a in r.bridge.boxes <==> a in b.boxes)
    ensures r.Fired? ==> forall a :: a != reg.data && a in b.boxes ==> r.bridge.boxes[a] == b.boxes[a]
    ensures r.Fired? ==> r.bridge.slots == b.slots && r.bridge.next == b.next && r.bridge.stale == b.stale
  {
    if reg.tramp.Missing? then NullCall
    else if reg.data !in b.boxes then UseAfterFree
    else if reg.data in b.stale then DanglingCapture
    else
      var ran := b.(fired := b.fired + [Invocation(b.boxes[reg.data], args)]);
      if Frees(reg.tramp) then Fired(ran.(boxes := ran.boxes - {reg.data})) else Fired(ran)
  }

  /** The toolkit raising event `s` on object `p`: whatever is registered there
      fires; with nothing registered nothing happens. */
  function Trigger(b: Bridge, p: Ptr, s: Slot, args: seq<Ptr>): Fired
  {
    if (p, s) in b.slots then Fire(b, b.slots[(p, s)], args) else Fired(b)
  }

  /** The same event raised `n` times in a row, stopping at the first failure. */
  function TriggerTimes(b: Bridge, p: Ptr, s: Slot, args: seq<Ptr>, n: nat): Fired
    decreases n
  {
    if n == 0 then Fired(b)
    else match Trigger(b, p, s, args)
      case Fired(b1) => TriggerTimes(b1, p, s, args, n - 1)
      case other => other
  }

  function Repeat<T>(x: T, n: nat): (r: seq<T>)
    ensures |r| == n && forall i :: 0 <= i < n ==> r[i] == x
  {
    if n == 0 then [] else [x] + Repeat(x, n - 1)
  }

  /** A borrowing registration fires its closure every time, and its box survives. */
  lemma {:induction false} BorrowedFiresEveryTime(b: Bridge, p: Ptr, s: Slot, args: seq<Ptr>, n: nat)
    requires (p, s) in b.slots && b.slots[(p, s)].tramp == Borrowing
    requires b.slots[(p, s)].data in b.boxes && b.slots[(p, s)].data !in b.stale
    ensures TriggerTimes(b, p, s, args, n).Fired?
    ensures TriggerTimes(b, p, s, args, n).bridge.fired
            == b.fired + Repeat(Invocation(b.boxes[b.slots[(p, s)].data], args), n)
    ensures b.slots[(p, s)].data in TriggerTimes(b, p, s, args, n).bridge.boxes
    decreases n
  {
    if n > 0 {
      var reg := b.slots[(p, s)];
      var b1 := Fire(b, reg, args).bridge;
      assert b1.slots == b.slots && reg.data in b1.boxes && b1.boxes[reg.data] == b.boxes[reg.data] by {
        assert b1 == b.(fired := b.fired + [Invocation(b.boxes[reg.data], args)]);
      }
      BorrowedFiresEveryTime(b1, p, s, args, n - 1);
      var inv := Invocation(b.boxes[reg.data], args);
      assert Repeat(inv, n) == [inv] + Repeat(inv, n - 1);
    }
  }

  /** A consuming registration fires once; raising the event again reads the freed box. */
  lemma ConsumedFiresOnce(b: Bridge, p: Ptr, s: Slot, args: seq<Ptr>)
    requires (p, s) in b.slots && b.slots[(p, s)].tramp == Consuming
    requires b.slots[(p, s)].data in b.boxes && b.slots[(p, s)].data !in b.stale
    ensures Trigger(b, p, s, args).Fired?
    ensures Trigger(b, p, s, args).bridge.fired == b.fired + [Invocation(b.boxes[b.slots[(p, s)].data], args)]
    ensures Trigger(Trigger(b, p, s, args).bridge, p, s, args).UseAfterFree?
  {
  }
}
