/** Event-loop stepping (`EventLoop` of the `iui` crate) and the toolkit's
    main-thread queue that `queue_main` and `on_should_quit` feed. */
module EventLoop {
  import opened Wrappers
  import opened Foreign
  import opened Callbacks

  /** What a loop does, in order: the `uiMainSteps()` call that sets the toolkit
      up for stepping, a `uiMainStep(wait)` call, a run of the `on_tick`
      callback, or a sleep of the thread for some nanoseconds. */
  datatype LoopEvent = MainSteps | MainStep(wait: bool) | Tick(callback: Closure) | Sleep(nanos: nat)

  /** An `EventLoop`: the optional `on_tick` callback and everything it has done. */
  datatype Loop = Loop(callback: Option<Closure>, log: seq<LoopEvent>)

  /** `UI::event_loop`: one `uiMainSteps()` call, and a loop with no callback. */
  const NewLoop := Loop(None, [MainSteps])

  /** `on_tick` replaces the callback without running it. */
  function OnTick(l: Loop, c: Closure): (r: Loop)
    ensures r.callback == Some(c) && r.log == l.log
  {
    l.(callback := Some(c))
  }

  /** After `on_tick`, every step runs the new callback right after the
      toolkit call, whatever callback was there before. */
  lemma StepAfterOnTick(l: Loop, c: Closure, wait: bool, reply: int)
    ensures Step(OnTick(l, c), wait, reply).0.log == l.log + [MainStep(wait), Tick(c)]
    ensures Step(OnTick(l, c), wait, reply).0.callback == Some(c)
  {
  }

  /** The callback runs, if there is one. */
  function RunCallback(l: Loop): (r: Loop)
    ensures r.callback == l.callback
    ensures |r.log| == |l.log| + (if l.callback.Some? then 1 else 0) && r.log[..|l.log|] == l.log
    ensures l.callback.Some? ==> r.log[|l.log|] == Tick(l.callback.value)
  {
    match l.callback
    case None => l
    case Some(c) => l.(log := l.log + [Tick(c)])
  }

  /** What one step leaves in the log: the toolkit call, then the callback. */
  function Round(wait: bool, callback: Option<Closure>): (r: seq<LoopEvent>)
    ensures 0 < |r| && r[0] == MainStep(wait)
    ensures forall i :: 0 <= i < |r| ==> !r[i].Sleep? && (r[i].MainStep? ==> r[i].wait == wait)
  {
    [MainStep(wait)] + (if callback.Some? then [Tick(callback.value)] else [])
  }

  /** One `uiMainStep(wait)` whose answer is `reply`, then the callback. The step
      says "keep running" exactly when the toolkit answered 1. */
  function Step(l: Loop, wait: bool, reply: int): (r: (Loop, bool))
    ensures r.1 <==> reply == 1
    ensures r.0.callback == l.callback
    ensures r.0.log == l.log + [MainStep(wait)] + (if l.callback.Some? then [Tick(l.callback.value)] else [])
  {
    var stepped := l.(log := l.log + [MainStep(wait)]);
    (RunCallback(stepped), reply == 1)
  }

  /** `next_tick`: a non-blocking step. */
  function NextTick(l: Loop, reply: int): (r: (Loop, bool))
    ensures r.1 <==> reply == 1
    ensures r.0.log == l.log + Round(false, l.callback) && r.0.callback == l.callback
  {
    Step(l, false, reply)
  }

  /** `next_event_tick`: a step that waits for an event. */
  function NextEventTick(l: Loop, reply: int): (r: (Loop, bool))
    ensures r.1 <==> reply == 1
    ensures r.0.log == l.log + Round(true, l.callback) && r.0.callback == l.callback
  {
    Step(l, true, reply)
  }

  /** `n` steps in a row: no sleep anywhere. */
  function Rounds(wait: bool, callback: Option<Closure>, n: nat): (r: seq<LoopEvent>)
    ensures n <= |r|
    ensures forall i :: 0 <= i < |r| ==> !r[i].Sleep? && (r[i].MainStep? ==> r[i].wait == wait)
  {
    if n == 0 then [] else Rounds(wait, callback, n - 1) + Round(wait, callback)
  }

  /** The position of the first answer other than 1: the step that ends a run. */
  ghost predicate StopsAt(replies: seq<int>, k: nat)
  {
    && k < |replies|
    && replies[k] != 1
    && forall i :: 0 <= i < k ==> replies[i] == 1
  }

  /** Steps with `wait` until a step answers other than 1. `replies` lists the
      toolkit's answers in order; the loop consumes exactly up to and including
      the first one that is not 1, running the callback after every step. */
  method Drive(l: Loop, wait: bool, replies: seq<int>) returns (r: Loop, steps: nat)
    requires exists k :: 0 <= k < |replies| && replies[k] != 1
    ensures 0 < steps && StopsAt(replies, steps - 1)
    ensures r.log == l.log + Rounds(wait, l.callback, steps) && r.callback == l.callback
  {
    r := l;
    steps := 0;
    var going := true;
    while going
      invariant steps <= |replies|
      invariant forall i :: 0 <= i < steps ==> replies[i] == 1 || (!going && i == steps - 1)
      invariant !going ==> 0 < steps && replies[steps - 1] != 1
      invariant going ==> exists k :: steps <= k < |replies| && replies[k] != 1
      invariant r.log == l.log + Rounds(wait, l.callback, steps) && r.callback == l.callback
      decreases |replies| - steps, going
    {
      var (next, more) := Step(r, wait, replies[steps]);
      assert next.log == l.log + (Rounds(wait, l.callback, steps) + Round(wait, l.callback));
      r := next;
      steps := steps + 1;
      going := more;
    }
  }

  /** `run`: steps that wait for events until the toolkit says to quit. */
  method Run(l: Loop, replies: seq<int>) returns (r: Loop, steps: nat)
    requires exists k :: 0 <= k < |replies| && replies[k] != 1
    ensures 0 < steps && StopsAt(replies, steps - 1)
    ensures r.log == l.log + Rounds(true, l.callback, steps)
  {
    r, steps := Drive(l, true, replies);
  }

  /** `delay_ms * 1000000` on `u32`: it overflows above 4294 ms. With overflow
      checks (`checked`) that panics; without them it wraps around. */
  function DelayNanos(delayMs: u32, checked: bool): (r: Outcome<u32>)
    ensures r.Panic? <==> checked && delayMs > 4294
    ensures r.Panic? ==> r.fault == ArithmeticOverflow
    ensures r.Ok? ==> r.value == (delayMs * 1000000) % 0x1_0000_0000
    ensures delayMs <= 4294 ==> r == Ok(delayMs * 1000000)
  {
    if delayMs * 1000000 < 0x1_0000_0000 then Ok(delayMs * 1000000)
    else if checked then Panic(ArithmeticOverflow)
    else Ok((delayMs * 1000000) % 0x1_0000_0000)
  }

  /** A delay just over the limit: a panic with overflow checks, and a sleep of
      32704 ns instead of 4.295 s without them. */
  lemma LongDelayOverflows()
    ensures DelayNanos(4295, true) == Panic(ArithmeticOverflow)
    ensures DelayNanos(4295, false) == Ok(32704)
  {
  }

  /** `run_delay` as written: non-blocking steps one right after the other until
      the toolkit says to quit, and only then a single sleep. No step is ever
      separated from the next by a pause. */
  method RunDelay(l: Loop, delayMs: u32, checked: bool, replies: seq<int>) returns (r: Outcome<Loop>, steps: nat)
    requires exists k :: 0 <= k < |replies| && replies[k] != 1
    ensures 0 < steps && StopsAt(replies, steps - 1)
    ensures r.Panic? <==> DelayNanos(delayMs, checked).Panic?
    ensures r.Ok? ==> r.value.log == l.log + Rounds(false, l.callback, steps) + [Sleep(DelayNanos(delayMs, checked).value)]
    ensures r.Ok? ==> forall i :: |l.log| <= i < |r.value.log| - 1 ==> !r.value.log[i].Sleep?
  {
    var looped;
    looped, steps := Drive(l, false, replies);
    match DelayNanos(delayMs, checked)
    case Panic(f) =>
      r := Panic(f);
    case Ok(nanos) =>
      r := Ok(looped.(log := looped.log + [Sleep(nanos)]));
      assert forall i :: |l.log| <= i < |r.value.log| - 1 ==> r.value.log[i] == Rounds(false, l.callback, steps)[i - |l.log|];
  }

  /** `n` paced steps: each non-blocking step and its callback, then a sleep. */
  function Paced(callback: Option<Closure>, n: nat, nanos: nat): (r: seq<LoopEvent>)
    ensures n <= |r|
    ensures r != [] ==> r[|r| - 1] == Sleep(nanos)
    ensures forall i :: 0 <= i < |r| && r[i].Tick? ==> i + 1 < |r| && r[i + 1] == Sleep(nanos)
    ensures forall i :: 0 <= i < |r| && r[i].MainStep? ==> !r[i].wait
  {
    if n == 0 then []
    else
      var prev := Paced(callback, n - 1, nanos);
      var r := prev + Round(false, callback) + [Sleep(nanos)];
      assert forall i :: |prev| <= i < |r| - 1 ==> r[i] == Round(false, callback)[i - |prev|];
      r
  }

  /** Corrected `run_delay`: the delay, computed without overflow, is slept after
      every step, so the callback runs about once per delay. */
  method RunDelayPaced(l: Loop, delayMs: u32, replies: seq<int>) returns (r: Loop, steps: nat)
    requires exists k :: 0 <= k < |replies| && replies[k] != 1
    ensures 0 < steps && StopsAt(replies, steps - 1)
    ensures r.log == l.log + Paced(l.callback, steps, delayMs * 1000000) && r.callback == l.callback
    ensures forall i :: |l.log| <= i < |r.log| && r.log[i].Tick? ==> i + 1 < |r.log| && r.log[i + 1] == Sleep(delayMs * 1000000)
  {
    var nanos := delayMs * 1000000;
    r := l;
    steps := 0;
    var going := true;
    while going
      invariant steps <= |replies|
      invariant forall i :: 0 <= i < steps ==> replies[i] == 1 || (!going && i == steps - 1)
      invariant !going ==> 0 < steps && replies[steps - 1] != 1
      invariant going ==> exists k :: steps <= k < |replies| && replies[k] != 1
      invariant r.log == l.log + Paced(l.callback, steps, nanos) && r.callback == l.callback
      decreases |replies| - steps, going
    {
      var (next, more) := NextTick(r, replies[steps]);
      r := next.(log := next.log + [Sleep(nanos)]);
      assert r.log == l.log + (Paced(l.callback, steps, nanos) + Round(false, l.callback) + [Sleep(nanos)]);
      steps := steps + 1;
      going := more;
    }
    assert forall i :: |l.log| <= i < |r.log| ==> r.log[i] == Paced(l.callback, steps, nanos)[i - |l.log|];
  }

  /** The callback boxes, the registrations `uiQueueMain` holds in FIFO order,
      and the one `uiOnShouldQuit` holds. */
  datatype MainQueue = MainQueue(bridge: Bridge, pending: seq<Registration>, shouldQuit: Option<Registration>)

  ghost predicate Good(q: MainQueue)
  {
    && Callbacks.Valid(q.bridge)
    && (forall i :: 0 <= i < |q.pending| ==> q.pending[i].data < q.bridge.next)
  }

  /** A leaked box queued behind everything already pending. */
  function Enqueue(q: MainQueue, c: Closure, t: Trampoline): (r: MainQueue)
    requires Good(q)
    ensures Good(r)
    ensures |r.pending| == |q.pending| + 1 && r.pending[..|q.pending|] == q.pending
    ensures r.pending[|q.pending|].tramp == t
    ensures r.pending[|q.pending|].data !in q.bridge.boxes
    ensures r.bridge.boxes == q.bridge.boxes[r.pending[|q.pending|].data := c]
    ensures r.bridge.fired == q.bridge.fired && r.shouldQuit == q.shouldQuit
    ensures r.pending[|q.pending|].data !in r.bridge.stale && r.bridge.stale == q.bridge.stale
  {
    var (b, a) := Leak(q.bridge, c);
    assert (q.pending + [Registration(t, a)])[..|q.pending|] == q.pending;
    q.(bridge := b, pending := q.pending + [Registration(t, a)])
  }

  /** `UI::queue_main` of the `iui` crate: the box is leaked, but `None` is
      passed as the function pointer. */
  function QueueMainIui(q: MainQueue, c: Closure): (r: MainQueue)
    requires Good(q)
    ensures Good(r)
    ensures |r.pending| == |q.pending| + 1 && r.pending[..|q.pending|] == q.pending
    ensures r.pending[|q.pending|].tramp == Missing
    ensures r.pending[|q.pending|].data !in q.bridge.boxes
    ensures r.bridge.boxes == q.bridge.boxes[r.pending[|q.pending|].data := c]
    ensures r.bridge.fired == q.bridge.fired && r.shouldQuit == q.shouldQuit
    ensures r.pending[|q.pending|].data !in r.bridge.stale && r.bridge.stale == q.bridge.stale
  {
    Enqueue(q, c, Missing)
  }

  /** `queue_main` of the `ui` crate: the box goes with `void_void_callback`,
      which consumes it. */
  function QueueMainUi(q: MainQueue, c: Closure): (r: MainQueue)
    requires Good(q)
    ensures Good(r)
    ensures |r.pending| == |q.pending| + 1 && r.pending[..|q.pending|] == q.pending
    ensures r.pending[|q.pending|].tramp == Consuming
    ensures r.pending[|q.pending|].data !in q.bridge.boxes
    ensures r.bridge.boxes == q.bridge.boxes[r.pending[|q.pending|].data := c]
    ensures r.bridge.fired == q.bridge.fired && r.shouldQuit == q.shouldQuit
    ensures r.pending[|q.pending|].data !in r.bridge.stale && r.bridge.stale == q.bridge.stale
  {
    Enqueue(q, c, Consuming)
  }

  /** `queue_main_unsafe` (`Context::queue_main`): `Some(c_callback)` with a box
      from `to_heap_ptr`; whether `from_void_ptr` frees it is the parameter. */
  function QueueMainUnsafe(q: MainQueue, c: Closure, releases: bool): (r: MainQueue)
    requires Good(q)
    ensures Good(r)
    ensures |r.pending| == |q.pending| + 1 && r.pending[..|q.pending|] == q.pending
    ensures r.pending[|q.pending|].tramp == Helper(releases)
    ensures r.pending[|q.pending|].data !in q.bridge.boxes
    ensures r.bridge.boxes == q.bridge.boxes[r.pending[|q.pending|].data := c]
    ensures r.bridge.fired == q.bridge.fired && r.shouldQuit == q.shouldQuit
    ensures r.pending[|q.pending|].data !in r.bridge.stale && r.bridge.stale == q.bridge.stale
  {
    Enqueue(q, c, Helper(releases))
  }

  /** Registering the should-quit handler with a freshly leaked box. */
  function SetShouldQuit(q: MainQueue, c: Closure, t: Trampoline): (r: MainQueue)
    requires Good(q)
    ensures Good(r)
    ensures r.shouldQuit.Some? && r.shouldQuit.value.tramp == t
    ensures r.shouldQuit.value.data !in q.bridge.boxes
    ensures r.shouldQuit.value.data in r.bridge.boxes && r.bridge.boxes[r.shouldQuit.value.data] == c
    ensures r.pending == q.pending && r.bridge.fired == q.bridge.fired
    ensures r.shouldQuit.value.data !in r.bridge.stale && r.bridge.stale == q.bridge.stale
    ensures r.bridge.boxes == q.bridge.boxes[r.shouldQuit.value.data := c] && r.bridge.slots == q.bridge.slots
  {
    var (b, a) := Leak(q.bridge, c);
    q.(bridge := b, shouldQuit := Some(Registration(t, a)))
  }

  /** `UI::on_should_quit` of the `iui` crate: `None` as the function pointer. */
  function OnShouldQuitIui(q: MainQueue, c: Closure): (r: MainQueue)
    requires Good(q)
    ensures Good(r)
    ensures r.shouldQuit.Some? && r.shouldQuit.value.tramp == Missing
    ensures r.shouldQuit.value.data !in q.bridge.boxes
    ensures r.shouldQuit.value.data in r.bridge.boxes && r.bridge.boxes[r.shouldQuit.value.data] == c
    ensures r.pending == q.pending && r.bridge.fired == q.bridge.fired
    ensures r.shouldQuit.value.data !in r.bridge.stale && r.bridge.stale == q.bridge.stale
    ensures r.bridge.boxes == q.bridge.boxes[r.shouldQuit.value.data := c] && r.bridge.slots == q.bridge.slots
  {
    SetShouldQuit(q, c, Missing)
  }

  /** `on_should_quit` of the `ui` crate: `void_void_callback`. */
  function OnShouldQuitUi(q: MainQueue, c: Closure): (r: MainQueue)
    requires Good(q)
    ensures Good(r)
    ensures r.shouldQuit.Some? && r.shouldQuit.value.tramp == Consuming
    ensures r.shouldQuit.value.data !in q.bridge.boxes
    ensures r.shouldQuit.value.data in r.bridge.boxes && r.bridge.boxes[r.shouldQuit.value.data] == c
    ensures r.pending == q.pending && r.bridge.fired == q.bridge.fired
    ensures r.shouldQuit.value.data !in r.bridge.stale && r.bridge.stale == q.bridge.stale
    ensures r.bridge.boxes == q.bridge.boxes[r.shouldQuit.value.data := c] && r.bridge.slots == q.bridge.slots
  {
    SetShouldQuit(q, c, Consuming)
  }

  /** Corrected should-quit registration: a real trampoline that borrows the
      box, so the handler survives being asked. */
  function OnShouldQuitBorrowed(q: MainQueue, c: Closure): (r: MainQueue)
    requires Good(q)
    ensures Good(r)
    ensures r.shouldQuit.Some? && r.shouldQuit.value.tramp == Borrowing
    ensures r.shouldQuit.value.data !in q.bridge.boxes
    ensures r.shouldQuit.value.data in r.bridge.boxes && r.bridge.boxes[r.shouldQuit.value.data] == c
    ensures r.pending == q.pending && r.bridge.fired == q.bridge.fired
    ensures r.shouldQuit.value.data !in r.bridge.stale && r.bridge.stale == q.bridge.stale
    ensures r.bridge.boxes == q.bridge.boxes[r.shouldQuit.value.data := c] && r.bridge.slots == q.bridge.slots
  {
    SetShouldQuit(q, c, Borrowing)
  }

  /** The toolkit asking the should-quit handler, if one is registered. */
  function AskShouldQuit(q: MainQueue): Fired
  {
    match q.shouldQuit
    case None => Fired(q.bridge)
    case Some(reg) => Fire(q.bridge, reg, [])
  }

  /** The toolkit asking the should-quit handler `n` times, stopping at the
      first failed call. */
  function AskShouldQuitTimes(q: MainQueue, n: nat): Fired
    decreases n
  {
    if n == 0 then Fired(q.bridge)
    else match AskShouldQuit(q)
      case Fired(b1) => AskShouldQuitTimes(q.(bridge := b1), n - 1)
      case other => other
  }

  /** A borrowing should-quit handler over a live box runs every time it is
      asked, and its box survives. */
  lemma {:induction false} BorrowedShouldQuitAnswersEveryAsk(q: MainQueue, n: nat)
    requires q.shouldQuit.Some? && q.shouldQuit.value.tramp == Borrowing
    requires q.shouldQuit.value.data in q.bridge.boxes && q.shouldQuit.value.data !in q.bridge.stale
    ensures AskShouldQuitTimes(q, n).Fired?
    ensures AskShouldQuitTimes(q, n).bridge.fired
            == q.bridge.fired + Repeat(Invocation(q.bridge.boxes[q.shouldQuit.value.data], []), n)
    decreases n
  {
    if n > 0 {
      var reg := q.shouldQuit.value;
      var inv := Invocation(q.bridge.boxes[reg.data], []);
      var b1 := Fire(q.bridge, reg, []).bridge;
      assert b1 == q.bridge.(fired := q.bridge.fired + [inv]);
      BorrowedShouldQuitAnswersEveryAsk(q.(bridge := b1), n - 1);
      assert Repeat(inv, n) == [inv] + Repeat(inv, n - 1);
    }
  }

  /** The corrected should-quit handler runs each of the `n` times the toolkit
      asks. */
  lemma CorrectedShouldQuitAnswersEveryAsk(q: MainQueue, c: Closure, n: nat)
    requires Good(q)
    ensures AskShouldQuitTimes(OnShouldQuitBorrowed(q, c), n).Fired?
    ensures AskShouldQuitTimes(OnShouldQuitBorrowed(q, c), n).bridge.fired == q.bridge.fired + Repeat(Invocation(c, []), n)
  {
    BorrowedShouldQuitAnswersEveryAsk(OnShouldQuitBorrowed(q, c), n);
  }

  /** The `ui` crate's should-quit handler goes through `void_void_callback`,
      which frees its box: it runs at the first ask, and a second ask reads
      freed memory. */
  lemma UiShouldQuitFreedAfterOneAsk(q: MainQueue, c: Closure)
    requires Good(q)
    ensures AskShouldQuitTimes(OnShouldQuitUi(q, c), 1).Fired?
    ensures AskShouldQuitTimes(OnShouldQuitUi(q, c), 1).bridge.fired == q.bridge.fired + [Invocation(c, [])]
    ensures AskShouldQuitTimes(OnShouldQuitUi(q, c), 2) == UseAfterFree
  {
  }

  /** The toolkit running the pending registrations one after the other,
      stopping at the first failed call. */
  function DispatchAll(b: Bridge, pending: seq<Registration>): Fired
    decreases |pending|
  {
    if pending == [] then Fired(b)
    else match Fire(b, pending[0], [])
      case Fired(b1) => DispatchAll(b1, pending[1..])
      case other => other
  }

  /** Consuming registrations whose boxes are live, not stale, and pairwise
      distinct. */
  ghost predicate LiveOnce(b: Bridge, pending: seq<Registration>)
  {
    && (forall i :: 0 <= i < |pending| ==> pending[i].tramp == Consuming && pending[i].data in b.boxes && pending[i].data !in b.stale)
    && (forall i, j :: 0 <= i < j < |pending| ==> pending[i].data != pending[j].data)
  }

  /** The closures `pending` refers to, in order, each run without arguments. */
  ghost function Expected(b: Bridge, pending: seq<Registration>): (r: seq<Invocation>)
    requires forall i :: 0 <= i < |pending| ==> pending[i].data in b.boxes
    ensures |r| == |pending|
    decreases |pending|
  {
    if pending == [] then []
    else [Invocation(b.boxes[pending[0].data], [])] + Expected(b, pending[1..])
  }

  lemma {:induction false} ExpectedFrame(b1: Bridge, b2: Bridge, pending: seq<Registration>)
    requires forall i :: 0 <= i < |pending| ==> pending[i].data in b1.boxes && pending[i].data in b2.boxes
    requires forall i :: 0 <= i < |pending| ==> b1.boxes[pending[i].data] == b2.boxes[pending[i].data]
    ensures Expected(b1, pending) == Expected(b2, pending)
    decreases |pending|
  {
    if pending != [] {
      ExpectedFrame(b1, b2, pending[1..]);
    }
  }

  lemma {:induction false} ExpectedAppend(b: Bridge, xs: seq<Registration>, ys: seq<Registration>)
    requires forall i :: 0 <= i < |xs| ==> xs[i].data in b.boxes
    requires forall i :: 0 <= i < |ys| ==> ys[i].data in b.boxes
    ensures Expected(b, xs + ys) == Expected(b, xs) + Expected(b, ys)
    decreases |xs|
  {
    if xs == [] {
      assert xs + ys == ys;
    } else {
      assert (xs + ys)[1..] == xs[1..] + ys;
      ExpectedAppend(b, xs[1..], ys);
    }
  }

  /** Consuming registrations run in FIFO order, each exactly once, and every
      box is freed afterwards. */
  lemma {:induction false} DispatchRunsInOrder(b: Bridge, pending: seq<Registration>)
    requires LiveOnce(b, pending)
    ensures DispatchAll(b, pending).Fired?
    ensures DispatchAll(b, pending).bridge.fired == b.fired + Expected(b, pending)
    ensures forall i :: 0 <= i < |pending| ==> pending[i].data !in DispatchAll(b, pending).bridge.boxes
    decreases |pending|
  {
    if pending != [] {
      var b1 := Fire(b, pending[0], []).bridge;
      var rest := pending[1..];
      assert b1.boxes == b.boxes - {pending[0].data};
      forall i | 0 <= i < |rest|
        ensures rest[i].data in b1.boxes && b1.boxes[rest[i].data] == b.boxes[rest[i].data]
      {
        assert rest[i] == pending[i + 1];
      }
      forall i, j | 0 <= i < j < |rest|
        ensures rest[i].data != rest[j].data
      {
        assert rest[i] == pending[i + 1] && rest[j] == pending[j + 1];
      }
      DispatchRunsInOrder(b1, rest);
      ExpectedFrame(b1, b, rest);
      var last := DispatchAll(b1, rest).bridge;
      forall i | 0 <= i < |pending|
        ensures pending[i].data !in last.boxes
      {
        if i > 0 {
          assert pending[i] == rest[i - 1];
        } else {
          assert forall a :: a in b1.boxes ==> a in b.boxes;
          assert pending[0].data !in b1.boxes;
          DispatchKeepsFreed(b1, rest, pending[0].data);
        }
      }
    }
  }

  /** A box that is already freed stays freed while the queue drains. */
  lemma {:induction false} DispatchKeepsFreed(b: Bridge, pending: seq<Registration>, a: Addr)
    requires a !in b.boxes
    requires DispatchAll(b, pending).Fired?
    ensures a !in DispatchAll(b, pending).bridge.boxes
    decreases |pending|
  {
    if pending != [] {
      var f := Fire(b, pending[0], []);
      DispatchKeepsFreed(f.bridge, pending[1..], a);
    }
  }

  /** Each closure, run without arguments. */
  function Invocations(cs: seq<Closure>): (r: seq<Invocation>)
    ensures |r| == |cs| && forall i :: 0 <= i < |cs| ==> r[i] == Invocation(cs[i], [])
  {
    if cs == [] then [] else [Invocation(cs[0], [])] + Invocations(cs[1..])
  }

  /** `queue_main_unsafe` on an empty queue: dispatching runs the closure once,
      and its box is freed exactly when `from_void_ptr` releases it. */
  lemma QueueMainUnsafeRunsOnce(q: MainQueue, c: Closure, releases: bool)
    requires Good(q) && q.pending == []
    ensures var r := QueueMainUnsafe(q, c, releases);
            && DispatchAll(r.bridge, r.pending).Fired?
            && DispatchAll(r.bridge, r.pending).bridge.fired == q.bridge.fired + [Invocation(c, [])]
            && (r.pending[0].data in DispatchAll(r.bridge, r.pending).bridge.boxes <==> !releases)
  {
    var r := QueueMainUnsafe(q, c, releases);
    assert r.pending == [r.pending[0]];
    assert r.pending[1..] == [];
  }

  /** Several `queue_main` calls of the `ui` crate, in order. */
  function QueueAllUi(q: MainQueue, cs: seq<Closure>): (r: MainQueue)
    requires Good(q)
    ensures Good(r)
    decreases |cs|
  {
    if cs == [] then q else QueueAllUi(QueueMainUi(q, cs[0]), cs[1..])
  }

  /** Queueing appends live, distinct, consuming registrations for exactly the
      given closures, in the given order. */
  lemma {:induction false} QueueAllShape(q: MainQueue, cs: seq<Closure>)
    requires Good(q) && LiveOnce(q.bridge, q.pending)
    ensures var r := QueueAllUi(q, cs);
            && LiveOnce(r.bridge, r.pending)
            && r.bridge.fired == q.bridge.fired
            && Expected(r.bridge, r.pending) == Expected(q.bridge, q.pending) + Invocations(cs)
    decreases |cs|
  {
    if cs != [] {
      var q1 := QueueMainUi(q, cs[0]);
      var n := |q.pending|;
      var added := q1.pending[n];
      assert q1.pending == q.pending + [added] by {
        assert q1.pending[..n] == q.pending;
      }
      forall i, j | 0 <= i < j < |q1.pending|
        ensures q1.pending[i].data != q1.pending[j].data
      {
        if j == n {
          assert q.pending[i].data in q.bridge.boxes;
        }
      }
      forall i | 0 <= i < |q1.pending|
        ensures q1.pending[i].tramp == Consuming && q1.pending[i].data in q1.bridge.boxes && q1.pending[i].data !in q1.bridge.stale
      {
        if i < n {
          assert q1.pending[i] == q.pending[i];
        }
      }
      assert LiveOnce(q1.bridge, q1.pending);
      ExpectedFrame(q1.bridge, q.bridge, q.pending);
      ExpectedAppend(q1.bridge, q.pending, [added]);
      assert Expected(q1.bridge, [added]) == [Invocation(cs[0], [])];
      QueueAllShape(q1, cs[1..]);
      assert Invocations(cs) == [Invocation(cs[0], [])] + Invocations(cs[1..]);
    }
  }

  /** The `ui` crate's main queue runs queued closures first-in first-out, each
      exactly once. */
  lemma QueueMainUiRunsInOrder(q: MainQueue, cs: seq<Closure>)
    requires Good(q) && q.pending == []
    ensures var r := QueueAllUi(q, cs);
            && DispatchAll(r.bridge, r.pending).Fired?
            && DispatchAll(r.bridge, r.pending).bridge.fired == q.bridge.fired + Invocations(cs)
  {
    assert LiveOnce(q.bridge, q.pending);
    assert Expected(q.bridge, q.pending) == [];
    QueueAllShape(q, cs);
    var r := QueueAllUi(q, cs);
    DispatchRunsInOrder(r.bridge, r.pending);
    assert r.bridge.fired + Expected(r.bridge, r.pending) == q.bridge.fired + Invocations(cs);
  }

  /** As written in the `iui` crate: the first queued closure is never run; the
      toolkit calls a null function pointer instead. The same holds for the
      should-quit handler. */
  lemma QueueMainIuiCallsNull(q: MainQueue, c: Closure, d: Closure)
    requires Good(q) && q.pending == []
    ensures var r := QueueMainIui(q, c);
            DispatchAll(r.bridge, r.pending) == NullCall
    ensures AskShouldQuit(OnShouldQuitIui(q, d)) == NullCall
  {
    var r := QueueMainIui(q, c);
    assert r.pending[0].tramp == Missing;
  }

  /** The correction for the `iui` crate's `queue_main` is the `ui` crate's
      registration: with it the queued closure runs exactly once and its box
      is freed. The `ui` crate's should-quit registration also runs the
      handler at the first ask, but only there. */
  lemma CorrectedQueueMainRunsOnce(q: MainQueue, c: Closure, d: Closure)
    requires Good(q) && q.pending == []
    ensures var r := QueueMainUi(q, c);
            && DispatchAll(r.bridge, r.pending).Fired?
            && DispatchAll(r.bridge, r.pending).bridge.fired == q.bridge.fired + [Invocation(c, [])]
            && r.pending[0].data !in DispatchAll(r.bridge, r.pending).bridge.boxes
    ensures AskShouldQuit(OnShouldQuitUi(q, d)).Fired?
    ensures AskShouldQuit(OnShouldQuitUi(q, d)).bridge.fired == q.bridge.fired + [Invocation(d, [])]
  {
    var r := QueueMainUi(q, c);
    assert r.pending == [r.pending[0]];
    DispatchRunsInOrder(r.bridge, r.pending);
  }
}
