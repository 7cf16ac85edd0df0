/** What holds in every reachable state of the scheduler, and when a sleeping task wakes. */
module SchedulerTheorems {
  import opened Sequences
  import opened Priorities
  import opened ReadyBitmap
  import opened Rings
  import opened Scheduler
  import opened SchedulerRuns
  import opened TaskLists
  import opened TickCounting
  import opened Ticks

  // Reachable states.

  /** The idle task has been created and the scheduler started. */
  function Boot(): Kernel {
    var none: Ring<Id> := Ring([], 0);
    Kernel(
      Board(
        map[Ready(0) := Ring([IDLE], 0), Ready(1) := none, Ready(2) := none, Ready(3) := none, Ready(4) := none,
            DelayedOne := none, DelayedTwo := none, TaskLists.Suspended := none, Termination := none],
        map[IDLE := Ready(0)],
        map[IDLE := Tcb(0, 0, 0, EventValue(0))],
        [true] + seq(31, _ => false),
        1),
      map[IDLE := Nowhere], none, map[], false, IDLE, 0, MAX_DELAY, 0, 0, 0, 0)
  }

  /** The state a run starts from: before the first tick. */
  ghost predicate Fresh(k: Kernel) { Inv(k) && k.ticks == 0 }

  lemma BootLists()
    ensures Full(Boot().b.lists) && Total(Boot().b.lists) == 1
  {
    var lists := Boot().b.lists;
    forall p: Level ensures Ready(p) in lists { assert p == 0 || p == 1 || p == 2 || p == 3 || p == 4; }
  }

  lemma BootPartition()
    requires Full(Boot().b.lists)
    ensures Partition(Boot().b.lists, Boot().b.at)
  {
    hide Total, Full;
  }

  lemma BootBitmap()
    requires Full(Boot().b.lists)
    ensures Bitmap(Boot().b.lists, Boot().b.top)
  {
    hide Total, Full;
    var lists := Boot().b.lists;
    forall p: Level ensures Boot().b.top[p] <==> lists[Ready(p)].items != [] {
      assert p == 0 || p == 1 || p == 2 || p == 3 || p == 4;
    }
  }

  lemma BootTidy()
    ensures Tidy(Boot().b)
  {
    BootLists();
    BootPartition();
    BootBitmap();
    hide Partition, Bitmap, Total, Full;
  }

  lemma BootQueues()
    ensures Queued([], [], Boot().due, 0) && Ahead([], Boot().due, 0, MAX_DELAY)
  {
    assert Ascending(Values(Boot().due, []));
  }

  lemma BootEvents()
    ensures Events(Boot().b.at, Boot().event, Boot().pending, 0)
  {
  }

  lemma BootHolds()
    ensures Fresh(Boot())
  {
    BootTidy();
    BootQueues();
    BootEvents();
    hide Tidy, Queued, Ahead, Events;
  }

  ghost predicate Next(k: Kernel, op: KernelOp, n: Kernel) {
    Inv(k) ==> Enabled(k, op) && n == Step(k, op, k.time + 1)
  }

  /** A run of the kernel: the states it goes through and the operation between each two. */
  ghost predicate Run(states: seq<Kernel>, ops: seq<KernelOp>)
    decreases |ops|
  {
    && |states| == |ops| + 1
    && if ops == [] then Fresh(states[0]) else
         var n := |ops| - 1;
         Run(states[..n + 1], ops[..n]) && Next(states[n], ops[n], states[n + 1])
  }

  /** How many tick interrupts a run contains. */
  function TickOps(ops: seq<KernelOp>): nat {
    if ops == [] then 0 else TickOps(ops[..|ops| - 1]) + (if ops[|ops| - 1] == Clock(Tick) then 1 else 0)
  }

  lemma {:induction false} RunKeepsInv(states: seq<Kernel>, ops: seq<KernelOp>)
    requires Run(states, ops)
    ensures Inv(states[|ops|]) && states[|ops|].ticks == TickOps(ops)
    decreases |ops|
  {
    if ops != [] {
      var n := |ops| - 1;
      RunKeepsInv(states[..n + 1], ops[..n]);
      NextKeeps(states[n], ops[n], states[n + 1]);
    }
  }

  lemma NextKeeps(k: Kernel, op: KernelOp, n: Kernel)
    requires Inv(k) && Next(k, op, n)
    ensures Inv(n) && n.ticks == k.ticks + (if op == Clock(Tick) then 1 else 0)
  {
    hide Inv, Step;
    StepKeeps(k, op, k.time + 1);
  }

  /** Task `u` has its item on exactly one list if it is live, and on no list otherwise; if it is
      ready that is the list of its priority. */
  ghost predicate OneList(b: Board, u: Id) {
    && (u in b.tcbs <==> u in b.at)
    && (forall l :: l in b.lists ==> (u in b.lists[l].items <==> u in b.at && b.at[u] == l) && Distinct(b.lists[l].items))
    && (u in b.at && b.at[u].Ready? ==> u in b.tcbs && b.at[u].p == b.tcbs[u].priority)
  }

  /** In every reachable state: each live task's item is on exactly one list, if it is ready on that
      of its priority; the list lengths add up to the number of tasks; and bit p of the bitmap is set
      iff ready list p is not empty. */
  lemma AlwaysPartitioned(states: seq<Kernel>, ops: seq<KernelOp>, u: Id, p: Level)
    requires Run(states, ops)
    ensures OneList(states[|ops|].b, u) && AddsUp(states[|ops|].b, p)
  {
    RunKeepsInv(states, ops);
    TidyMeans(states[|ops|].b, u, p);
  }

  ghost predicate AddsUp(b: Board, p: Level) {
    Full(b.lists) && Total(b.lists) == b.tasks && (b.top[p] <==> b.lists[Ready(p)].items != [])
  }

  lemma TidyMeans(b: Board, u: Id, p: Level)
    requires Tidy(b)
    ensures OneList(b, u) && AddsUp(b, p)
  {
  }

  /** In every reachable state: the clock lags behind the ticks delivered by exactly those pended;
      who is on the current delayed list wakes later in this epoch, who is on the other one in the
      next; and xNextTaskUnblockTime is not above the first wake time. */
  lemma AlwaysOnTime(states: seq<Kernel>, ops: seq<KernelOp>, u: Id)
    requires Run(states, ops)
    ensures var k := states[|ops|];
            && k.time + k.pended == TickOps(ops)
            && (k.suspended == 0 ==> k.time == TickOps(ops))
            && (u in Items(k.b, Current(k)) ==>
                  u in k.due && k.due[u] > k.time && Epoch(k.due[u]) == Epoch(k.time) && k.nextUnblock <= Low(k.due[u]))
            && (u in Items(k.b, Overflow(k)) ==> u in k.due && Epoch(k.due[u]) == Epoch(k.time) + 1)
  {
    RunKeepsInv(states, ops);
  }

  /** In every reachable state the list-empty assertion of the list switch would hold at the wrap. */
  lemma AlwaysEmptyAtSwap(states: seq<Kernel>, ops: seq<KernelOp>, t: nat)
    requires Run(states, ops) && t == states[|ops|].time + 1 && Low(t) == 0
    ensures Items(states[|ops|].b, Current(states[|ops|])) == []
  {
    RunKeepsInv(states, ops);
    SwapFindsEmpty(states[|ops|], t);
  }

  /** The idle task keeps the selection from ever finding an empty list, and the list found is that
      of the highest priority with a ready task. */
  lemma AlwaysSelectsHighest(states: seq<Kernel>, ops: seq<KernelOp>, u: Id)
    requires Run(states, ops)
    ensures var b := states[|ops|].b;
            && 0 <= Highest(b.top) < MAX_PRIORITIES && Full(b.lists) && b.lists[Ready(Highest(b.top))].items != []
            && (u in b.at && b.at[u].Ready? ==> u in b.tcbs && b.tcbs[u].priority <= Highest(b.top))
  {
    RunKeepsInv(states, ops);
    SelectsHighest(states[|ops|].b, IDLE);
  }

  // Sleeping.

  /** An operation that does not concern `u` itself. */
  predicate Spares(op: KernelOp, u: Id) {
    match op
    case Clock(_) => true
    case Wait(w) => w.Block? || w.u != u
    case Task(o) => o.u != u || o.Resume? || o.Reprioritise?
  }

  /** Task `u` sleeps until `d` and nobody has woken it. */
  predicate Asleep(k: Kernel, u: Id, d: nat) {
    IsDelayed(k, u) && k.due[u] == d && u in k.event && k.event[u] != OnPending
  }

  /** An operation that spares a sleeping task leaves it asleep as long as the clock does not reach
      its wake time, and has made it ready if the clock does. */
  lemma StepSpares(k: Kernel, op: KernelOp, t: nat, u: Id, d: nat)
    requires Inv(k) && Enabled(k, op) && t == k.time + 1 && Asleep(k, u, d) && Spares(op, u)
    ensures Sleeps(Step(k, op, t), u, d)
  {
    hide Steady, ClockStep, WaitStep, TaskStep;
    DelayedIsLater(k, u);
    match op
    case Clock(c) => ClockSpares(k, c, t, u, d);
    case Wait(w) => WaitSpares(k, w, u, d);
    case Task(o) => TaskSpares(k, o, u, d);
  }

  /** Task `u` is asleep if its time has not come, and ready if it has. */
  predicate Sleeps(k: Kernel, u: Id, d: nat) {
    if k.time < d then Asleep(k, u, d) else u in k.b.at && k.b.at[u].Ready?
  }

  lemma ClockSpares(k: Kernel, op: ClockOp, t: nat, u: Id, d: nat)
    requires Inv(k) && ClockEnabled(k, op) && t == k.time + 1 && Asleep(k, u, d) && d > k.time
    ensures Sleeps(ClockStep(k, op, t), u, d)
  {
    hide Steady, TickCame, ResumedAll, UnblockReset, Switched;
    match op
    case Tick => TickSpares(k, t, u, d);
    case SuspendAll =>
    case ResumeAll => ResumeSpares(k, t, u, d);
    case ResetUnblock => ResetKeeps(k);
    case Switch => SwitchedKeeps(k);
  }

  lemma TickSpares(k: Kernel, t: nat, u: Id, d: nat)
    requires Inv(k) && t == k.time + 1 && Asleep(k, u, d) && d > k.time
    ensures Sleeps(TickCame(k, t), u, d)
  {
    hide Steady, TickCame;
    TickCameKeeps(k, t);
    NobodyPends(k, u);
    if k.suspended == 0 { NobodyPends(TickCame(k, t), u); }
  }

  lemma ResumeSpares(k: Kernel, t: nat, u: Id, d: nat)
    requires Inv(k) && k.suspended > 0 && t == k.time + 1 && Asleep(k, u, d) && d > k.time
    ensures Sleeps(ResumedAll(k, t), u, d)
  {
    hide Steady, ResumedAll;
    ResumedAllKeeps(k, t);
    NobodyPends(k, u);
    if k.suspended == 1 { NobodyPends(ResumedAll(k, t), u); }
  }

  lemma NobodyPends(k: Kernel, u: Id)
    requires Inv(k) && u in k.b.at
    ensures u in k.event && u in k.b.tcbs && (k.suspended == 0 ==> k.event[u] != OnPending)
  {
    hide Partition, Bitmap, Queued, Ahead;
  }

  lemma MovesSpare(k: Kernel, n: Kernel, w: Id, u: Id, d: nat)
    requires OnlyMoves(k, n, w) && w != u && Asleep(k, u, d) && d > k.time
    ensures Sleeps(n, u, d)
  {
  }

  lemma WaitSpares(k: Kernel, op: WaitOp, u: Id, d: nat)
    requires Inv(k) && WaitEnabled(k, op) && Asleep(k, u, d) && d > k.time && (op.Block? || op.u != u)
    ensures Sleeps(WaitStep(k, op), u, d)
  {
    hide Steady, WaitStep, OnlyMoves;
    WaitKeeps(k, op);
    MovesSpare(k, WaitStep(k, op), Whom(k, op), u, d);
  }

  lemma TaskSpares(k: Kernel, op: TaskOp, u: Id, d: nat)
    requires Inv(k) && TaskEnabled(k, op) && Asleep(k, u, d) && d > k.time && (op.u != u || op.Resume? || op.Reprioritise?)
    ensures Sleeps(TaskStep(k, op), u, d)
  {
    hide Steady, OnlyMoves, NewTask, SuspendedTask, Roused, DeletedTask, GoneTask, Retagged;
    if op.Reprioritise? {
      RetaggedKeeps(k, op.u, op.c);
    } else if op.u != u {
      TaskKeeps(k, op);
      MovesSpare(k, TaskStep(k, op), op.u, u, d);
    }
  }

  /** A task put to sleep until `d` and left alone, by every task and interrupt but the clock's, is
      still asleep at every clock value before `d` and ready when the clock first reaches `d`, however
      the ticks were delivered: one by one or pended and caught up with. */
  lemma {:induction false} WakesExactlyOnTime(states: seq<Kernel>, ops: seq<KernelOp>, from: nat, u: Id, d: nat)
    requires Run(states, ops) && from <= |ops| && Asleep(states[from], u, d)
    requires forall j :: from <= j < |ops| ==> Spares(ops[j], u) && states[j].time < d
    ensures Sleeps(states[|ops|], u, d)
    decreases |ops|
  {
    hide Inv, Next;
    RunKeepsInv(states, ops);
    if |ops| == from {
      AsleepIsLater(states[from], u, d);
    } else {
      var n := |ops| - 1;
      WakesExactlyOnTime(states[..n + 1], ops[..n], from, u, d);
      RunKeepsInv(states[..n + 1], ops[..n]);
      NextSpares(states[n], ops[n], states[n + 1], u, d);
    }
  }

  lemma AsleepIsLater(k: Kernel, u: Id, d: nat)
    requires Inv(k) && Asleep(k, u, d)
    ensures d > k.time
  {
    DelayedIsLater(k, u);
  }

  lemma NextSpares(k: Kernel, op: KernelOp, n: Kernel, u: Id, d: nat)
    requires Inv(k) && Next(k, op, n) && Asleep(k, u, d) && Spares(op, u)
    ensures Sleeps(n, u, d)
  {
    hide Inv, Step;
    StepSpares(k, op, k.time + 1, u, d);
  }

  // Waits of zero ticks.

  /** A task that blocks in the last tick before the wrap leaves the current delayed list empty, as
      the assertion at the wrap demands, iff it waits for at least one tick. */
  lemma SwapSafeIff(k: Kernel, d: nat)
    requires Inv(k) && Low(k.time) == MAX_DELAY && k.time <= d < k.time + WRAP
    requires k.current in k.b.at && k.b.at[k.current].Ready?
    ensures Items(Blocked(k, d, false, false).b, Current(k)) == [] <==> d > k.time
  {
    var u := k.current;
    EmptyAtLastTick(k);
    LastTickIs(k.time, d);
    DelayFacts(k, u, DelayedList(k, d), Low(d));
    if d == k.time { assert PutAt([], 0, u) != []; }
  }

  lemma LastTickIs(time: nat, d: nat)
    requires Low(time) == MAX_DELAY && time <= d < time + WRAP
    ensures Epoch(d) == Epoch(time) <==> d == time
  {
    Split(time);
    Split(d);
  }

  lemma EmptyAtLastTick(k: Kernel)
    requires Steady(k) && Low(k.time) == MAX_DELAY
    ensures Items(k.b, Current(k)) == []
  {
    hide Low, Epoch, Tidy, Events;
    var c := Items(k.b, Current(k));
    forall u | u in c ensures k.due[u] > k.time && Epoch(k.due[u]) == Epoch(k.time) { }
    NothingIn(c, k.due, k.time);
  }

  lemma NothingIn(c: seq<Id>, due: map<Id, nat>, time: nat)
    requires forall u :: u in c ==> u in due && due[u] > time && Epoch(due[u]) == Epoch(time)
    requires Low(time) == MAX_DELAY
    ensures c == []
  {
    hide Low, Epoch;
    if c != [] { NothingLater(time, due[c[0]]); }
  }

  lemma NothingLater(time: nat, d: nat)
    requires Epoch(d) == Epoch(time) && d > time
    ensures Low(time) != MAX_DELAY
  {
    Split(time);
    Split(d);
  }
}
