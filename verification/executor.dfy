/** The cooperative executor behind `Context::spawn`: every poll of a task is a
    closure queued on the main thread that owns one `Arc` of the task, and the
    waker's vtable adjusts the `Arc`'s strong count by hand. The model is a
    ledger of strong counts plus the FIFO of queued polls. */
module Executor {
  import opened Wrappers
  import opened Foreign
  import Callbacks

  type TaskId = nat

  /** What a future's `poll` answered; the executor ignores it. */
  datatype Poll = Ready | Pending

  /** The strong count of one task's `Arc`, how many waker clones the future or
      other code keeps outside a poll, and whether the count has reached zero. */
  datatype Task = Task(count: int, wakers: nat, freed: bool)

  /** The tasks, the queued polls (each owning one `Arc`), and every poll that ran. */
  datatype Ledger = Ledger(tasks: map<TaskId, Task>, queue: seq<TaskId>, polls: seq<TaskId>)

  const EmptyLedger := Ledger(map[], [], [])

  /** A step of the ledger: it went through, it panicked, or it touched an `Arc`
      whose count had already reached zero. */
  datatype Step = Stepped(ledger: Ledger) | Panicked(fault: Fault) | Dangling

  /** The `Arc`s of task `t` something still owns: one per queued poll closure,
      one per waker clone held. */
  function Owners(l: Ledger, t: TaskId): nat
    requires t in l.tasks
  {
    Count(l.queue, t) + l.tasks[t].wakers
  }

  /** Every live task's strong count equals the number of its owners, and a
      freed task has none. */
  ghost predicate Balanced(l: Ledger)
  {
    forall t :: t in l.tasks ==>
      if l.tasks[t].freed then Owners(l, t) == 0 && l.tasks[t].count == 0
      else l.tasks[t].count == Owners(l, t) && l.tasks[t].count > 0
  }

  // The waker vtable, on one task's count

  /** Dropping one strong reference; reaching zero frees the task. */
  function Release(task: Task): (r: Option<Task>)
    ensures r.None? <==> task.freed || task.count <= 0
    ensures r.Some? ==> r.value.count == task.count - 1 && (r.value.freed <==> task.count == 1)
  {
    if task.freed || task.count <= 0 then None
    else Some(task.(count := task.count - 1, freed := task.count == 1))
  }

  /** `inc_ref_count`: a clone of the reconstructed `Arc` is kept in a
      `ManuallyDrop`, and so is the original: net +1. */
  function IncRefCount(task: Task): (r: Option<Task>)
    ensures r.None? <==> task.freed
    ensures r.Some? ==> r.value.count == task.count + 1 && !r.value.freed
  {
    if task.freed then None else Some(task.(count := task.count + 1))
  }

  /** `clone_raw`: +1, and the caller holds one more waker with the same data pointer. */
  function CloneWaker(l: Ledger, t: TaskId): (r: Step)
    requires t in l.tasks
    ensures r.Dangling? <==> l.tasks[t].freed
    ensures r.Stepped? ==> r.ledger.tasks.Keys == l.tasks.Keys
    ensures r.Stepped? ==> r.ledger.tasks[t].count == l.tasks[t].count + 1
    ensures r.Stepped? ==> r.ledger.tasks[t].wakers == l.tasks[t].wakers + 1
    ensures r.Stepped? ==> r.ledger.queue == l.queue && r.ledger.polls == l.polls
    ensures r.Stepped? ==> forall u :: u != t && u in l.tasks ==> r.ledger.tasks[u] == l.tasks[u]
    ensures !r.Panicked?
  {
    match IncRefCount(l.tasks[t])
    case None => Dangling
    case Some(task) =>
      Stepped(l.(tasks := l.tasks[t := task.(wakers := task.wakers + 1)]))
  }

  /** `drop_raw`: a held waker is dropped and its reference released. */
  function DropWaker(l: Ledger, t: TaskId): (r: Step)
    requires t in l.tasks && l.tasks[t].wakers > 0
    ensures r.Dangling? <==> l.tasks[t].freed || l.tasks[t].count <= 0
    ensures r.Stepped? ==> r.ledger.tasks.Keys == l.tasks.Keys
    ensures r.Stepped? ==> r.ledger.tasks[t].count == l.tasks[t].count - 1
    ensures r.Stepped? ==> r.ledger.tasks[t].wakers == l.tasks[t].wakers - 1
    ensures r.Stepped? ==> r.ledger.queue == l.queue && r.ledger.polls == l.polls
    ensures r.Stepped? ==> forall u :: u != t && u in l.tasks ==> r.ledger.tasks[u] == l.tasks[u]
    ensures !r.Panicked?
  {
    match Release(l.tasks[t])
    case None => Dangling
    case Some(task) =>
      Stepped(l.(tasks := l.tasks[t := task.(wakers := task.wakers - 1)]))
  }

  /** `wake_raw`: the held waker's reference is turned back into an `Arc` and
      moved into a new poll closure: the count stays, one poll is queued. */
  function Wake(l: Ledger, t: TaskId): (r: Step)
    requires t in l.tasks && l.tasks[t].wakers > 0
    ensures r.Dangling? <==> l.tasks[t].freed
    ensures r.Stepped? ==> r.ledger.tasks.Keys == l.tasks.Keys
    ensures r.Stepped? ==> r.ledger.tasks[t].count == l.tasks[t].count
    ensures r.Stepped? ==> r.ledger.tasks[t].wakers == l.tasks[t].wakers - 1
    ensures r.Stepped? ==> r.ledger.queue == l.queue + [t] && r.ledger.polls == l.polls
    ensures r.Stepped? ==> forall u :: u != t && u in l.tasks ==> r.ledger.tasks[u] == l.tasks[u]
    ensures !r.Panicked?
  {
    var task := l.tasks[t];
    if task.freed then Dangling
    else Stepped(l.(tasks := l.tasks[t := task.(wakers := task.wakers - 1)], queue := l.queue + [t]))
  }

  /** `wake_by_ref_raw`: +1 and then wake, so the caller's waker survives. */
  function WakeByRef(l: Ledger, t: TaskId): (r: Step)
    requires t in l.tasks
    ensures r.Dangling? <==> l.tasks[t].freed
    ensures r.Stepped? ==> r.ledger.tasks.Keys == l.tasks.Keys
    ensures r.Stepped? ==> r.ledger.tasks[t].count == l.tasks[t].count + 1
    ensures r.Stepped? ==> r.ledger.tasks[t].wakers == l.tasks[t].wakers
    ensures r.Stepped? ==> r.ledger.queue == l.queue + [t] && r.ledger.polls == l.polls
    ensures r.Stepped? ==> forall u :: u != t && u in l.tasks ==> r.ledger.tasks[u] == l.tasks[u]
    ensures !r.Panicked?
  {
    match IncRefCount(l.tasks[t])
    case None => Dangling
    case Some(task) =>
      var l1 := l.(tasks := l.tasks[t := task]);
      Wake(l1.(tasks := l1.tasks[t := task.(wakers := task.wakers + 1)]), t)
  }

  // Spawning and polling

  /** `Context::spawn` / `spawn_unsafe`: the future goes into a fresh `Arc` with
      count 1 that moves into a queued poll closure; nothing is polled now. */
  function Spawn(l: Ledger, t: TaskId): (r: Ledger)
    requires t !in l.tasks
    ensures t in r.tasks && r.tasks[t] == Task(1, 0, false)
    ensures r.queue == l.queue + [t] && r.polls == l.polls
    ensures forall u :: u != t ==> (u in r.tasks <==> u in l.tasks)
    ensures forall u :: u != t && u in l.tasks ==> r.tasks[u] == l.tasks[u]
  {
    l.(tasks := l.tasks[t := Task(1, 0, false)], queue := l.queue + [t])
  }

  /** What a future does with its waker while it is being polled: keep `kept`
      clones of it, call `wake_by_ref` `byRef` times. */
  datatype Behaviour = Behaviour(kept: nat, byRef: nat, answer: Poll)

  /** The main thread running the front poll closure. The temporary
      `arc.clone()` passed to `make_waker` comes and goes within the statement,
      `Arc::get_mut(..).unwrap()` panics unless the count is 1, the future runs
      (`beh`) and its answer is ignored, the poll's waker is dropped (-1), and,
      when `closureReleased`, dropping the closure releases its own `Arc` (-1). */
  function PollStep(l: Ledger, beh: Behaviour, closureReleased: bool): (r: Step)
    requires l.queue != [] && l.queue[0] in l.tasks
    ensures var task := l.tasks[l.queue[0]];
            r.Panicked? <==> !task.freed && task.count != 1
    ensures r.Panicked? ==> r.fault == TaskShared
    ensures var task := l.tasks[l.queue[0]];
            r.Dangling? <==> task.freed || (task.count == 1 && closureReleased && beh.kept + beh.byRef == 0)
    ensures var task := l.tasks[l.queue[0]];
            r.Stepped? ==> && r.ledger.tasks.Keys == l.tasks.Keys
                           && r.ledger.tasks[l.queue[0]].count == task.count + beh.kept + beh.byRef - (if closureReleased then 2 else 1)
                           && r.ledger.tasks[l.queue[0]].wakers == task.wakers + beh.kept
                           && (r.ledger.tasks[l.queue[0]].freed <==> r.ledger.tasks[l.queue[0]].count == 0)
    ensures r.Stepped? ==> forall u :: u != l.queue[0] && u in l.tasks ==> r.ledger.tasks[u] == l.tasks[u]
    ensures r.Stepped? ==> r.ledger.polls == l.polls + [l.queue[0]]
    ensures r.Stepped? ==> r.ledger.queue == l.queue[1..] + Callbacks.Repeat(l.queue[0], beh.byRef)
  {
    var t := l.queue[0];
    // `make_waker` builds the raw waker from `Arc::as_ptr` and takes no count.
    var task := l.tasks[t];
    if task.freed then Dangling
    else if task.count != 1 then Panicked(TaskShared)
    else
      var during := task.(count := task.count + beh.kept + beh.byRef, wakers := task.wakers + beh.kept);
      match Release(during)
      case None => Dangling
      case Some(after) =>
        var finished :=
          if !closureReleased then Some(after)
          else Release(after);
        match finished
        case None => Dangling
        case Some(done) =>
          Stepped(Ledger(l.tasks[t := done], l.queue[1..] + Callbacks.Repeat(t, beh.byRef), l.polls + [t]))
  }

  lemma {:induction false} CountRepeat(t: TaskId, n: nat, u: TaskId)
    ensures Count(Callbacks.Repeat(t, n), u) == (if u == t then n else 0)
  {
    if n > 0 {
      assert Callbacks.Repeat(t, n)[1..] == Callbacks.Repeat(t, n - 1);
      CountRepeat(t, n - 1, u);
    }
  }

  lemma CountTail(q: seq<TaskId>, u: TaskId)
    requires q != []
    ensures Count(q, u) == Count(q[1..], u) + (if q[0] == u then 1 else 0)
  {
  }

  /** The poll's answer makes no difference. */
  lemma PollIgnoresAnswer(l: Ledger, kept: nat, byRef: nat, closureReleased: bool)
    requires l.queue != [] && l.queue[0] in l.tasks
    ensures PollStep(l, Behaviour(kept, byRef, Ready), closureReleased)
         == PollStep(l, Behaviour(kept, byRef, Pending), closureReleased)
  {
  }

  /** Spawning keeps the ledger balanced. */
  lemma SpawnBalanced(l: Ledger, t: TaskId)
    requires Balanced(l) && Known(l) && t !in l.tasks
    ensures Balanced(Spawn(l, t)) && Known(Spawn(l, t))
  {
    var r := Spawn(l, t);
    forall u | u in r.tasks
      ensures Count(r.queue, u) == Count(l.queue, u) + (if u == t then 1 else 0)
    {
      CountAppend(l.queue, [t], u);
    }
    CountAbsent(l.queue, t);
  }

  lemma {:induction false} CountAbsent(q: seq<TaskId>, t: TaskId)
    requires forall i :: 0 <= i < |q| ==> q[i] != t
    ensures Count(q, t) == 0
  {
    if q != [] {
      CountAbsent(q[1..], t);
    }
  }

  ghost predicate Known(l: Ledger)
  {
    forall i :: 0 <= i < |l.queue| ==> l.queue[i] in l.tasks
  }

  /** With the closure leaked after running (the poll closure is never freed),
      a poll keeps the ledger balanced: the waker's drop stands in for the
      closure's unreleased `Arc`. */
  lemma PollLeakedBalanced(l: Ledger, beh: Behaviour)
    requires Balanced(l) && Known(l) && l.queue != []
    requires PollStep(l, beh, false).Stepped?
    ensures Balanced(PollStep(l, beh, false).ledger)
    ensures Known(PollStep(l, beh, false).ledger)
  {
    var t := l.queue[0];
    var r := PollStep(l, beh, false).ledger;
    CountTail(l.queue, t);
    forall u | u in r.tasks
      ensures Count(r.queue, u) == Count(l.queue, u) - (if u == t then 1 else 0) + (if u == t then beh.byRef else 0)
    {
      CountTail(l.queue, u);
      CountAppend(l.queue[1..], Callbacks.Repeat(t, beh.byRef), u);
      CountRepeat(t, beh.byRef, u);
    }
  }

  /** With a closure release on top of the waker's drop, a task nobody else
      holds is released twice: the second release touches a freed `Arc`. */
  lemma PollReleasedDoubleFree(l: Ledger)
    requires Balanced(l) && l.queue != [] && l.queue[0] in l.tasks
    requires Count(l.queue, l.queue[0]) == 1 && l.tasks[l.queue[0]].wakers == 0
    ensures PollStep(l, Behaviour(0, 0, Pending), true) == Dangling
  {
    var t := l.queue[0];
    assert !l.tasks[t].freed by {
      CountTail(l.queue, t);
    }
  }

  /** Two queued polls of the same task: the first of them finds the count at 2
      and panics. */
  lemma TwoQueuedPollsPanic(l: Ledger, beh: Behaviour, closureReleased: bool)
    requires Balanced(l) && l.queue != [] && l.queue[0] in l.tasks
    requires Count(l.queue, l.queue[0]) >= 2
    ensures PollStep(l, beh, closureReleased) == Panicked(TaskShared)
  {
  }

  /** A future that calls `wake_by_ref` on its own waker while being polled (and
      keeps no clone) leaves a count of 1 and exactly one queued poll, so the
      next poll succeeds again. */
  lemma SelfWakeRepolls(t: TaskId)
    ensures var l1 := Spawn(EmptyLedger, t);
            && PollStep(l1, Behaviour(0, 1, Pending), false).Stepped?
            && var l2 := PollStep(l1, Behaviour(0, 1, Pending), false).ledger;
            && l2.tasks[t].count == 1 && l2.queue == [t] && l2.polls == [t]
            && PollStep(l2, Behaviour(0, 0, Ready), false).Stepped?
  {
    var l1 := Spawn(EmptyLedger, t);
    assert l1.queue == [t];
  }

  /** A future that keeps a clone of its waker and also wakes itself by
      reference: the next poll finds the count at 2 and panics. */
  lemma StoredWakerPanicsNextPoll(t: TaskId)
    ensures var l1 := Spawn(EmptyLedger, t);
            && PollStep(l1, Behaviour(1, 1, Pending), false).Stepped?
            && var l2 := PollStep(l1, Behaviour(1, 1, Pending), false).ledger;
            && l2.queue == [t]
            && PollStep(l2, Behaviour(0, 0, Ready), false) == Panicked(TaskShared)
  {
    var l1 := Spawn(EmptyLedger, t);
    assert l1.queue == [t];
  }

  /** A queued poll more for `t`: one more owner of `t`, none for any other task. */
  lemma CountSnoc(q: seq<TaskId>, t: TaskId, u: TaskId)
    ensures Count(q + [t], u) == Count(q, u) + (if u == t then 1 else 0)
  {
    CountAppend(q, [t], u);
  }

  /** `clone_raw` outside a poll keeps the ledger balanced. */
  lemma CloneWakerBalanced(l: Ledger, t: TaskId)
    requires Balanced(l) && t in l.tasks && CloneWaker(l, t).Stepped?
    ensures Balanced(CloneWaker(l, t).ledger)
  {
  }

  /** `drop_raw` of a held waker keeps the ledger balanced. */
  lemma DropWakerBalanced(l: Ledger, t: TaskId)
    requires Balanced(l) && t in l.tasks && l.tasks[t].wakers > 0 && DropWaker(l, t).Stepped?
    ensures Balanced(DropWaker(l, t).ledger)
  {
  }

  /** `wake_raw` of a held waker keeps the ledger balanced. */
  lemma WakeBalanced(l: Ledger, t: TaskId)
    requires Balanced(l) && t in l.tasks && l.tasks[t].wakers > 0 && Wake(l, t).Stepped?
    ensures Balanced(Wake(l, t).ledger)
  {
    var r := Wake(l, t).ledger;
    forall u | u in r.tasks
      ensures Count(r.queue, u) == Count(l.queue, u) + (if u == t then 1 else 0)
    {
      CountSnoc(l.queue, t, u);
    }
  }

  /** `wake_by_ref_raw` keeps the ledger balanced. */
  lemma WakeByRefBalanced(l: Ledger, t: TaskId)
    requires Balanced(l) && t in l.tasks && WakeByRef(l, t).Stepped?
    ensures Balanced(WakeByRef(l, t).ledger)
  {
    var r := WakeByRef(l, t).ledger;
    forall u | u in r.tasks
      ensures Count(r.queue, u) == Count(l.queue, u) + (if u == t then 1 else 0)
    {
      CountSnoc(l.queue, t, u);
    }
  }
}
