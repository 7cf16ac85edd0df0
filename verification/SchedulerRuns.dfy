/** Runs of the scheduler: every kernel operation that moves tasks, ticks coming in between, and
    what holds in every state they can lead to. */
module SchedulerRuns {
  import opened Priorities
  import opened ReadyBitmap
  import opened Rings
  import opened Scheduler
  import opened TaskLists
  import opened TickCounting
  import opened Ticks

  // Ticks and the suspended scheduler.

  /** One more tick that is not counted yet. */
  function Pended(k: Kernel): Kernel { k.(pended := k.pended + 1, ticks := k.ticks + 1) }

  lemma PendedKeeps(k: Kernel)
    requires Steady(k)
    ensures Steady(Pended(k))
  {
    hide Tidy, Queued, Ahead, Events;
  }

  /** xTaskIncrementTick: counted at once, or pended while the scheduler is suspended. */
  ghost function TickCame(k: Kernel, t: nat): Kernel
    requires Inv(k) && t == k.time + 1
  {
    PendedKeeps(k);
    if k.suspended > 0 then Pended(k) else Ticked(Pended(k), t)
  }

  lemma TickCameKeeps(k: Kernel, t: nat)
    requires Inv(k) && t == k.time + 1
    ensures var n := TickCame(k, t);
            && Inv(n) && n.ticks == k.ticks + 1 && n.due == k.due
            && (if k.suspended > 0 then n == Pended(k) else n.time == t && n.suspended == 0 && WakesDue(k, n, 1))
  {
    hide Steady, Ticked, WakesDue;
    PendedKeeps(k);
    if k.suspended == 0 {
      TickedKeeps(Pended(k), t);
      TickedWakes(Pended(k), t);
      PendedWakes(k, Ticked(Pended(k), t));
    }
  }

  lemma PendedWakes(k: Kernel, n: Kernel)
    requires WakesDue(Pended(k), n, 1)
    ensures WakesDue(k, n, 1)
  {
  }

  /** vTaskSuspendAll and a nested xTaskResumeAll change the nesting count only. */
  lemma NestedKeeps(k: Kernel, depth: nat)
    requires Inv(k) && depth > 0
    ensures Inv(k.(suspended := depth))
  {
    hide Tidy, Queued, Ahead;
  }

  /** The first part of xTaskResumeAll: nobody is pending any more, and the scheduler runs again. */
  ghost function DrainedAll(k: Kernel): Kernel
    requires Steady(k)
  {
    DrainedKeeps(k);
    (if k.pending.items == [] then Drained(k) else UnblockReset(Drained(k))).(suspended := 0)
  }

  /** xTaskResumeAll. */
  ghost function ResumedAll(k: Kernel, t: nat): Kernel
    requires Inv(k) && k.suspended > 0 && t == k.time + 1
  {
    DrainedAllKeeps(k);
    if k.suspended > 1 then k.(suspended := k.suspended - 1) else CaughtUp(DrainedAll(k), t, k.pended)
  }

  lemma DrainedAllKeeps(k: Kernel)
    requires Steady(k)
    ensures var n := DrainedAll(k);
            && Steady(n) && n.suspended == 0 && n.time == k.time && n.pended == k.pended && n.ticks == k.ticks
            && n.due == k.due && n.current == k.current && PendingWakes(k, n)
  {
    hide Steady, Drained, PendingWakes, UnblockReset;
    DrainedKeeps(k);
    DrainedMoves(k);
    var d := Drained(k);
    var r := if k.pending.items == [] then d else UnblockReset(d);
    if k.pending.items != [] { ResetKeeps(d); }
    ReleasedKeeps(r);
    PendingWakesFrame(k, d, DrainedAll(k));
  }

  lemma ReleasedKeeps(k: Kernel)
    requires Steady(k) && k.pending.items == []
    ensures Steady(k.(suspended := 0))
  {
    hide Tidy, Queued, Ahead;
  }

  /** Exactly the tasks held pending are made ready. */
  ghost predicate PendingWakes(k: Kernel, n: Kernel) {
    && n.b.at.Keys == k.b.at.Keys && n.b.tcbs == k.b.tcbs
    && forall v :: v in k.b.at && v in n.b.at && v in k.event && v in k.b.tcbs ==>
         n.b.at[v] == if k.event[v] == OnPending then Ready(k.b.tcbs[v].priority) else k.b.at[v]
  }

  lemma PendingWakesFrame(k: Kernel, d: Kernel, n: Kernel)
    requires PendingWakes(k, d) && n.b == d.b
    ensures PendingWakes(k, n)
  {
  }

  lemma DrainedMoves(k: Kernel)
    requires Steady(k)
    ensures PendingWakes(k, Drained(k))
  {
    hide Steady, Drained;
    DrainedKeeps(k);
    forall v | v in k.b.at && v in Drained(k).b.at && v in k.event && v in k.b.tcbs
      ensures Drained(k).b.at[v] == if k.event[v] == OnPending then Ready(k.b.tcbs[v].priority) else k.b.at[v]
    {
      DrainedExact(k, v);
    }
  }

  lemma ResetKeeps(k: Kernel)
    requires Steady(k)
    ensures Steady(UnblockReset(k)) && UnblockReset(k) == k.(nextUnblock := UnblockReset(k).nextUnblock)
  {
    hide Tidy, Queued, Events;
    var c := Items(k.b, Current(k));
    assert c != [] ==> c[0] in c;
    UnblockResetKeeps(k);
  }

  /** What the outermost xTaskResumeAll makes of the tasks: those held pending are ready, and so are
      those due by the ticks that came meanwhile. */
  ghost predicate ResumeWakes(k: Kernel, n: Kernel) {
    && n.b.at.Keys == k.b.at.Keys
    && forall v :: v in k.b.at && v in n.b.at && v in k.event && v in k.b.tcbs ==>
         n.b.at[v] == if k.event[v] == OnPending || (IsDelayed(k, v) && k.due[v] <= k.ticks)
                      then Ready(k.b.tcbs[v].priority) else k.b.at[v]
  }

  lemma ResumedAllKeeps(k: Kernel, t: nat)
    requires Inv(k) && k.suspended > 0 && t == k.time + 1
    ensures var n := ResumedAll(k, t);
            && Inv(n) && n.ticks == k.ticks && n.suspended == k.suspended - 1 && n.due == k.due
            && (if k.suspended > 1 then n == k.(suspended := k.suspended - 1)
                else n.time == n.ticks && ResumeWakes(k, n))
  {
    hide Steady, ResumeWakes, WakesDue, DrainedAll, CaughtUp, PendingWakes;
    DrainedAllKeeps(k);
    if k.suspended > 1 {
      NestedKeeps(k, k.suspended - 1);
    } else {
      ClockLag(k);
      ResumedWakes(k, DrainedAll(k), CaughtUp(DrainedAll(k), t, k.pended));
    }
  }

  lemma ClockLag(k: Kernel)
    requires Steady(k)
    ensures k.time + k.pended == k.ticks
  {
    hide Tidy, Queued, Ahead, Events;
  }

  lemma ResumedWakes(k: Kernel, d: Kernel, n: Kernel)
    requires k.time + k.pended == k.ticks && d.time == k.time && d.due == k.due
    requires PendingWakes(k, d) && WakesDue(d, n, k.pended)
    ensures ResumeWakes(k, n)
  {
    forall v | v in k.b.at && v in n.b.at && v in k.event && v in k.b.tcbs
      ensures n.b.at[v] == if k.event[v] == OnPending || (IsDelayed(k, v) && k.due[v] <= k.ticks)
                           then Ready(k.b.tcbs[v].priority) else k.b.at[v]
    {
      assert v in d.b.at;
    }
  }

  /** A step that concerns task `w` only. */
  ghost predicate OnlyMoves(k: Kernel, n: Kernel, w: Id) {
    && n.time == k.time
    && forall v :: v != w && v in k.b.at && v in k.event ==>
         && v in n.b.at && n.b.at[v] == k.b.at[v] && v in n.event && n.event[v] == k.event[v]
         && (v in k.due ==> v in n.due && n.due[v] == k.due[v])
  }

  // Tasks put aside.

  lemma AsideFacts(k: Kernel, u: Id, to: ListId)
    requires Late(k) && u in k.b.at && (to == TaskLists.Suspended || to == Termination)
    ensures var n := SetAside(k.b, u, to);
            && Tidy(n) && n.at == k.b.at[u := to] && n.tasks == k.b.tasks
            && Items(n, Current(k)) == Left(k.b, Current(k), u) && Items(n, Overflow(k)) == Left(k.b, Overflow(k), u)
            && (k.b.at[u] != Termination ==> |Items(n, Termination)| == |Items(k.b, Termination)| + if to == Termination then 1 else 0)
  {
    hide Queued, Events, Tidy, Left;
    TidyFull(k.b);
    SetAsideKeeps(k.b, u, to);
    SetAsideItems(k.b, u, to, Current(k));
    SetAsideItems(k.b, u, to, Overflow(k));
    if k.b.at[u] != Termination { AsideEnds(k.b, u, to); }
  }

  lemma AsideEnds(b: Board, u: Id, to: ListId)
    requires Tidy(b) && u in b.at && b.at[u] != Termination && (to == TaskLists.Suspended || to == Termination)
    requires to in b.lists && Termination in b.lists
    ensures |Items(SetAside(b, u, to), Termination)| == |Items(b, Termination)| + if to == Termination then 1 else 0
  {
    NotOn(b, u, Termination);
    if to == Termination {
      UnlinkKeeps(b, u);
      UnlinkItems(b, u, Termination);
      MovedItems(b, u, to, End(Unlink(b, u).lists[to]), Termination);
    } else {
      SetAsideItems(b, u, to, Termination);
    }
  }

  /** A step that leaves the clock alone and the delayed lists as they were or shorter. */
  lemma Assembled(k: Kernel, n: Kernel, at: map<Id, ListId>)
    requires Inv(k) && n.swapped == k.swapped && n.due == k.due && n.time == k.time && n.nextUnblock == k.nextUnblock
    requires n.suspended == k.suspended && n.pended == k.pended && n.ticks == k.ticks
    requires Tidy(n.b) && n.b.at == at && IDLE in at && at[IDLE].Ready?
    requires Queued(Items(n.b, Current(k)), Items(n.b, Overflow(k)), k.due, k.time)
    requires Ahead(Items(n.b, Current(k)), k.due, k.time, k.nextUnblock)
    requires Events(at, n.event, n.pending, k.suspended) && |Items(n.b, Termination)| == n.deleted
    ensures Inv(n)
  {
    hide Tidy, Queued, Ahead, Events;
  }

  /** vTaskSuspend: from wherever the task is to the suspended list, and off its event list. */
  ghost function SuspendedTask(k: Kernel, u: Id): Kernel
    requires Late(k) && u in k.b.at
  {
    Unhooked(k, u).(b := SetAside(k.b, u, TaskLists.Suspended))
  }

  /** vTaskDelete of the running task: the idle task will clean up. */
  ghost function EndedTask(k: Kernel, u: Id): Kernel
    requires Late(k) && u in k.b.at
  {
    Unhooked(k, u).(b := SetAside(k.b, u, Termination), deleted := k.deleted + 1)
  }

  lemma SuspendedKeeps(k: Kernel, u: Id)
    requires Inv(k) && u in k.b.at && u != IDLE && k.b.at[u] != Termination
    ensures Inv(SuspendedTask(k, u)) && OnlyMoves(k, SuspendedTask(k, u), u) && SuspendedTask(k, u).ticks == k.ticks
    ensures SuspendedTask(k, u).b.at == k.b.at[u := TaskLists.Suspended]
  {
    hide Tidy, Queued, Ahead, Events, SetAside, Items, Left;
    AsideFacts(k, u, TaskLists.Suspended);
    QueuedLeave(k, u);
    UnhookedKeeps(k, u, TaskLists.Suspended);
    Assembled(k, SuspendedTask(k, u), k.b.at[u := TaskLists.Suspended]);
  }

  lemma EndedKeeps(k: Kernel, u: Id)
    requires Inv(k) && u in k.b.at && u != IDLE && k.b.at[u] != Termination
    ensures Inv(EndedTask(k, u)) && OnlyMoves(k, EndedTask(k, u), u) && EndedTask(k, u).ticks == k.ticks
    ensures EndedTask(k, u).b.at == k.b.at[u := Termination] && EndedTask(k, u).b.tasks == k.b.tasks
  {
    hide Tidy, Queued, Ahead, Events, SetAside, Items, Left;
    AsideFacts(k, u, Termination);
    QueuedLeave(k, u);
    UnhookedKeeps(k, u, Termination);
    Assembled(k, EndedTask(k, u), k.b.at[u := Termination]);
  }

  lemma DiscardFacts(k: Kernel, u: Id)
    requires Late(k) && u in k.b.at
    ensures var n := Discarded(k.b, u);
            && Tidy(n) && n.at == k.b.at - {u} && n.tasks == k.b.tasks - 1
            && Items(n, Current(k)) == Left(k.b, Current(k), u) && Items(n, Overflow(k)) == Left(k.b, Overflow(k), u)
            && |Items(n, Termination)| == |Items(k.b, Termination)| - (if k.b.at[u] == Termination then 1 else 0)
  {
    hide OwnLists, Bitmap;
    DiscardedKeeps(k.b, u);
    UnlinkItems(k.b, u, Current(k));
    UnlinkItems(k.b, u, Overflow(k));
    UnlinkItems(k.b, u, Termination);
    if k.b.at[u] == Termination { RemoveItems(k.b.lists[Termination], u); } else { NotOn(k.b, u, Termination); }
  }

  /** The task's TCB is freed: at once when another task deletes it, or by the idle task. */
  ghost function GoneTask(k: Kernel, u: Id): Kernel
    requires Late(k) && u in k.b.at
  {
    var h := Unhooked(k, u);
    h.(b := Discarded(k.b, u), event := h.event - {u}, deleted := k.deleted - (if k.b.at[u] == Termination then 1 else 0))
  }

  lemma GoneKeeps(k: Kernel, u: Id)
    requires Inv(k) && u in k.b.at && u != IDLE
    ensures Inv(GoneTask(k, u)) && OnlyMoves(k, GoneTask(k, u), u) && GoneTask(k, u).ticks == k.ticks
    ensures GoneTask(k, u).b.at == k.b.at - {u} && GoneTask(k, u).b.tasks == k.b.tasks - 1
  {
    hide Tidy, Queued, Ahead, Events, Discarded, Items, Left;
    DiscardFacts(k, u);
    QueuedLeave(k, u);
    UnhookedKeeps(k, u, TaskLists.Suspended);
    Assembled(k, GoneTask(k, u), k.b.at - {u});
  }

  // Ready tasks.

  /** prvAddNewTaskToReadyList. */
  ghost function NewTask(k: Kernel, u: Id, p: Level): Kernel
    requires Late(k)
  {
    k.(b := Created(k.b, u, p), event := k.event[u := Nowhere])
  }

  lemma NewKeeps(k: Kernel, u: Id, p: Level)
    requires Inv(k) && u !in k.b.at
    ensures Inv(NewTask(k, u, p)) && OnlyMoves(k, NewTask(k, u, p), u) && NewTask(k, u, p).ticks == k.ticks
    ensures NewTask(k, u, p).b.at == k.b.at[u := Ready(p)] && NewTask(k, u, p).b.tasks == k.b.tasks + 1
  {
    hide Tidy, Queued, Ahead, Events, Items;
    CreatedKeeps(k.b, u, p);
    NewFacts(k, u, p);
    Assembled(k, NewTask(k, u, p), k.b.at[u := Ready(p)]);
  }

  lemma NewFacts(k: Kernel, u: Id, p: Level)
    requires Late(k) && u !in k.b.at
    ensures var n := Created(k.b, u, p);
            && Items(n, Current(k)) == Items(k.b, Current(k)) && Items(n, Overflow(k)) == Items(k.b, Overflow(k))
            && Items(n, Termination) == Items(k.b, Termination)
    ensures Events(k.b.at[u := Ready(p)], k.event[u := Nowhere], k.pending, k.suspended)
  {
    var b := k.b.(tcbs := k.b.tcbs[u := Tcb(p, p, 0, EventValue(p))], tasks := k.b.tasks + 1);
    LinkElsewhere(b, Ready(p), End(b.lists[Ready(p)]), u, Current(k));
    LinkElsewhere(b, Ready(p), End(b.lists[Ready(p)]), u, Overflow(k));
    LinkElsewhere(b, Ready(p), End(b.lists[Ready(p)]), u, Termination);
    EventsNew(k.b.at, k.event, k.pending, k.suspended, u, Ready(p));
  }

  lemma EventsNew(at: map<Id, ListId>, event: map<Id, Place>, pending: Ring<Id>, suspended: nat, u: Id, l: ListId)
    requires Events(at, event, pending, suspended) && u !in at
    ensures Events(at[u := l], event[u := Nowhere], pending, suspended)
  {
    hide Waiting;
  }

  /** A change of priority fields; a ready task changes its list if its priority in use changes. */
  ghost function Retagged(k: Kernel, u: Id, c: Change): Kernel
    requires Late(k) && u in k.b.at && Allowed(k.b.tcbs[u], c)
  {
    k.(b := Reprioritised(k.b, u, c))
  }

  lemma RetaggedKeeps(k: Kernel, u: Id, c: Change)
    requires Inv(k) && u in k.b.at && Allowed(k.b.tcbs[u], c)
    ensures var n := Retagged(k, u, c);
            && Inv(n) && n.b.tcbs == k.b.tcbs[u := Changed(k.b.tcbs[u], c)]
            && n.time == k.time && n.ticks == k.ticks && n.due == k.due && n.event == k.event && n.b.at.Keys == k.b.at.Keys
            && forall v :: v in k.b.at && !k.b.at[v].Ready? ==> n.b.at[v] == k.b.at[v]
  {
    hide Tidy, Queued, Ahead, Events, Reprioritised, Items;
    ReprioritisedKeeps(k.b, u, c);
    RetagFacts(k, u, c);
    Assembled(k, Retagged(k, u, c), Retagged(k, u, c).b.at);
  }

  lemma RetagFacts(k: Kernel, u: Id, c: Change)
    requires Late(k) && u in k.b.at && Allowed(k.b.tcbs[u], c)
    ensures var n := Reprioritised(k.b, u, c);
            && Items(n, Current(k)) == Items(k.b, Current(k)) && Items(n, Overflow(k)) == Items(k.b, Overflow(k))
            && Items(n, Termination) == Items(k.b, Termination) && n.at.Keys == k.b.at.Keys
            && IDLE in n.at && n.at[IDLE].Ready?
            && (forall v :: v in k.b.at && !k.b.at[v].Ready? ==> n.at[v] == k.b.at[v])
            && Events(n.at, k.event, k.pending, k.suspended)
  {
    hide Tidy, Reprioritised, Events;
    TidyFull(k.b);
    ReprioritisedElsewhere(k.b, u, c, Current(k));
    ReprioritisedElsewhere(k.b, u, c, Overflow(k));
    ReprioritisedElsewhere(k.b, u, c, Termination);
    ReprioritisedAt(k.b, u, c);
    EventsReady(k, Reprioritised(k.b, u, c).at);
  }

  /** Moves between ready lists do not concern the event list items. */
  lemma EventsReady(k: Kernel, at: map<Id, ListId>)
    requires Events(k.b.at, k.event, k.pending, k.suspended) && at.Keys == k.b.at.Keys
    requires forall v :: v in k.b.at && !k.b.at[v].Ready? ==> at[v] == k.b.at[v]
    ensures Events(at, k.event, k.pending, k.suspended)
  {
  }

  /** vTaskSwitchContext. */
  ghost function Switched(k: Kernel): Kernel
    requires Late(k)
  {
    SelectsHighest(k.b, IDLE);
    if k.suspended > 0 then k
    else k.(b := Turned(k.b), current := Selected(k.b.lists[Ready(Highest(k.b.top))]))
  }

  /** The task switched to is ready and of the highest priority found. */
  lemma SwitchedKeeps(k: Kernel)
    requires Inv(k)
    ensures var n := Switched(k);
            && Inv(n) && n.b.at == k.b.at && n.b.tcbs == k.b.tcbs && n.due == k.due && n.event == k.event
            && n.time == k.time && n.ticks == k.ticks
            && (k.suspended == 0 ==> n.current in k.b.at && k.b.at[n.current].Ready? && Highest(k.b.top) == k.b.at[n.current].p)
  {
    hide Tidy, Queued, Ahead, Events, Items;
    SelectsHighest(k.b, IDLE);
    if k.suspended == 0 {
      TurnFacts(k);
      Assembled(k, Switched(k), k.b.at);
    }
  }

  lemma TurnFacts(k: Kernel)
    requires Late(k) && 0 <= Highest(k.b.top) < MAX_PRIORITIES && k.b.lists[Ready(Highest(k.b.top))].items != []
    ensures var l, n := Ready(Highest(k.b.top)), Turned(k.b);
            && Tidy(n)
            && Items(n, Current(k)) == Items(k.b, Current(k)) && Items(n, Overflow(k)) == Items(k.b, Overflow(k))
            && Items(n, Termination) == Items(k.b, Termination)
            && Selected(k.b.lists[l]) in k.b.at && k.b.at[Selected(k.b.lists[l])] == l
  {
    TurnedKeeps(k.b);
    AdvanceTurns(k.b.lists[Ready(Highest(k.b.top))]);
    OnList(k.b, Ready(Highest(k.b.top)), Selected(k.b.lists[Ready(Highest(k.b.top))]));
  }

  // Runs.

  /** Everything that happens to the lists, each as one critical section: what concerns the clock
      and the processor, */
  datatype ClockOp = Tick | SuspendAll | ResumeAll | ResetUnblock | Switch

  /** the running task going to sleep until clock value `d` or for ever, and waiting tasks being
      woken: `EventWake` and `UnorderedWake` by an object, `NotifyWake` by a notification, */
  datatype WaitOp =
    | Block(d: nat, forever: bool, onEvent: bool)
    | EventWake(u: Id)
    | UnorderedWake(u: Id)
    | NotifyWake(u: Id, fromIsr: bool)

  /** and tasks being created, suspended, resumed, deleted and given priorities. `Resume` has an
      effect on a suspended task only, and only if that does not wait for a notification. */
  datatype TaskOp =
    | Create(u: Id, p: Level)
    | Suspend(u: Id)
    | Resume(u: Id, waiting: bool, fromIsr: bool)
    | Delete(u: Id)
    | CleanUp(u: Id)
    | Reprioritise(u: Id, c: Change)

  datatype KernelOp = Clock(c: ClockOp) | Wait(w: WaitOp) | Task(o: TaskOp)

  predicate Live(k: Kernel, u: Id) { u in k.b.at && k.b.at[u] != Termination }

  predicate At(k: Kernel, u: Id, p: Place) { u in k.b.at && u in k.event && k.event[u] == p }

  /** What the kernel's own assertions and call sites ask for. */
  predicate ClockEnabled(k: Kernel, op: ClockOp) { op.ResumeAll? ==> k.suspended > 0 }

  predicate WaitEnabled(k: Kernel, op: WaitOp) {
    match op
    case Block(d, forever, onEvent) =>
      k.current in k.b.at && k.b.at[k.current].Ready? && k.current != IDLE && (forever || k.time < d < k.time + WRAP)
    case EventWake(u) => At(k, u, OnObject)
    case UnorderedWake(u) => At(k, u, OnObject) && k.suspended > 0
    case NotifyWake(u, fromIsr) => At(k, u, Nowhere) && Waiting(k.b.at[u])
  }

  predicate TaskEnabled(k: Kernel, op: TaskOp) {
    match op
    case Create(u, p) => u !in k.b.at
    case Suspend(u) => Live(k, u) && u != IDLE && (u == k.current ==> k.suspended == 0)
    case Resume(u, waiting, fromIsr) => u in k.b.at
    case Delete(u) => Live(k, u) && u != IDLE && (u == k.current ==> k.suspended == 0)
    case CleanUp(u) => u in Items(k.b, Termination)
    case Reprioritise(u, c) => u in k.b.at && u in k.b.tcbs && Allowed(k.b.tcbs[u], c)
  }

  predicate Enabled(k: Kernel, op: KernelOp) {
    match op
    case Clock(c) => ClockEnabled(k, c)
    case Wait(w) => WaitEnabled(k, w)
    case Task(o) => TaskEnabled(k, o)
  }

  ghost function ClockStep(k: Kernel, op: ClockOp, t: nat): Kernel
    requires Inv(k) && ClockEnabled(k, op) && t == k.time + 1
  {
    match op
    case Tick => TickCame(k, t)
    case SuspendAll => k.(suspended := k.suspended + 1)
    case ResumeAll => ResumedAll(k, t)
    case ResetUnblock => UnblockReset(k)
    case Switch => Switched(k)
  }

  lemma ClockKeeps(k: Kernel, op: ClockOp, t: nat)
    requires Inv(k) && ClockEnabled(k, op) && t == k.time + 1
    ensures Inv(ClockStep(k, op, t)) && ClockStep(k, op, t).ticks == k.ticks + if op.Tick? then 1 else 0
  {
    hide Steady, TickCame, ResumedAll, Switched, UnblockReset;
    match op
    case Tick => TickCameKeeps(k, t);
    case SuspendAll => NestedKeeps(k, k.suspended + 1);
    case ResumeAll => ResumedAllKeeps(k, t);
    case ResetUnblock => ResetKeeps(k);
    case Switch => SwitchedKeeps(k);
  }

  ghost function WaitStep(k: Kernel, op: WaitOp): Kernel
    requires Inv(k) && WaitEnabled(k, op)
  {
    hide Late, Ahead;
    match op
    case Block(d, forever, onEvent) => Blocked(k, d, forever, onEvent)
    case EventWake(u) => EventWoken(k, u)
    case UnorderedWake(u) => Woken(k, u)
    case NotifyWake(u, fromIsr) => Roused(k, u, fromIsr)
  }

  /** Whom an operation on waiting tasks is about. */
  function Whom(k: Kernel, op: WaitOp): Id { if op.Block? then k.current else op.u }

  lemma WaitKeeps(k: Kernel, op: WaitOp)
    requires Inv(k) && WaitEnabled(k, op)
    ensures Inv(WaitStep(k, op)) && OnlyMoves(k, WaitStep(k, op), Whom(k, op)) && WaitStep(k, op).ticks == k.ticks
  {
    hide Late, Ahead, Blocked, EventWoken, Woken, Roused, OnlyMoves;
    match op
    case Block(d, forever, onEvent) => BlockedMoves(k, d, forever, onEvent);
    case EventWake(u) => EventWaits(k, u); RousedKeeps(k, u, true); RousedIs(k, u, true);
    case UnorderedWake(u) => EventWaits(k, u); RousedKeeps(k, u, false); RousedIs(k, u, false);
    case NotifyWake(u, fromIsr) => RousedKeeps(k, u, fromIsr);
  }

  /** vTaskResume and xTaskResumeFromISR. */
  ghost function ResumedTask(k: Kernel, u: Id, waiting: bool, fromIsr: bool): Kernel
    requires Inv(k) && u in k.b.at
  {
    if k.b.at[u] == TaskLists.Suspended && At(k, u, Nowhere) && !waiting then Roused(k, u, fromIsr) else k
  }

  ghost function TaskStep(k: Kernel, op: TaskOp): Kernel
    requires Inv(k) && TaskEnabled(k, op)
  {
    hide Late, Ahead;
    match op
    case Create(u, p) => NewTask(k, u, p)
    case Suspend(u) => SuspendedTask(k, u)
    case Resume(u, waiting, fromIsr) => ResumedTask(k, u, waiting, fromIsr)
    case Delete(u) => DeletedTask(k, u)
    case CleanUp(u) => CleanUpKeeps(k, u); GoneTask(k, u)
    case Reprioritise(u, c) => Retagged(k, u, c)
  }

  lemma TaskKeeps(k: Kernel, op: TaskOp)
    requires Inv(k) && TaskEnabled(k, op)
    ensures Inv(TaskStep(k, op)) && TaskStep(k, op).ticks == k.ticks
    ensures !op.Reprioritise? ==> OnlyMoves(k, TaskStep(k, op), op.u)
  {
    hide Steady, NewTask, SuspendedTask, Roused, DeletedTask, GoneTask, Retagged;
    match op
    case Create(u, p) => NewKeeps(k, u, p);
    case Suspend(u) => SuspendedKeeps(k, u);
    case Resume(u, waiting, fromIsr) =>
      if k.b.at[u] == TaskLists.Suspended && At(k, u, Nowhere) && !waiting { RousedKeeps(k, u, fromIsr); }
    case Delete(u) => DeletedKeeps(k, u);
    case CleanUp(u) => CleanUpKeeps(k, u);
    case Reprioritise(u, c) => RetaggedKeeps(k, u, c);
  }

  lemma CleanUpKeeps(k: Kernel, u: Id)
    requires Inv(k) && u in Items(k.b, Termination)
    ensures u in k.b.at && Inv(GoneTask(k, u)) && OnlyMoves(k, GoneTask(k, u), u) && GoneTask(k, u).ticks == k.ticks
  {
    hide Tidy, Queued, Ahead, Events, GoneTask, OnlyMoves;
    OnList(k.b, Termination, u);
    GoneKeeps(k, u);
  }

  ghost function Step(k: Kernel, op: KernelOp, t: nat): Kernel
    requires Inv(k) && Enabled(k, op) && t == k.time + 1
  {
    match op
    case Clock(c) => ClockStep(k, c, t)
    case Wait(w) => WaitStep(k, w)
    case Task(o) => TaskStep(k, o)
  }

  lemma StepKeeps(k: Kernel, op: KernelOp, t: nat)
    requires Inv(k) && Enabled(k, op) && t == k.time + 1
    ensures Inv(Step(k, op, t)) && Step(k, op, t).ticks == k.ticks + if op == Clock(Tick) then 1 else 0
  {
    hide Inv, ClockStep, WaitStep, TaskStep, OnlyMoves;
    match op
    case Clock(c) => ClockKeeps(k, c, t);
    case Wait(w) => WaitKeeps(k, w);
    case Task(o) => TaskKeeps(k, o);
  }

  lemma EventWaits(k: Kernel, u: Id)
    requires Late(k) && u in k.event && k.event[u] != Nowhere
    ensures u in k.b.at && Waiting(k.b.at[u])
  {
    hide Tidy, Queued;
  }

  /** vTaskDelete. */
  ghost function DeletedTask(k: Kernel, u: Id): Kernel
    requires Inv(k) && Live(k, u) && u != IDLE
  {
    GoneKeeps(k, u);
    if u == k.current then EndedTask(k, u) else UnblockReset(GoneTask(k, u))
  }

  lemma DeletedKeeps(k: Kernel, u: Id)
    requires Inv(k) && Live(k, u) && u != IDLE
    ensures Inv(DeletedTask(k, u)) && OnlyMoves(k, DeletedTask(k, u), u) && DeletedTask(k, u).ticks == k.ticks
  {
    hide Late, Ahead, EndedTask, GoneTask, UnblockReset;
    GoneKeeps(k, u);
    if u == k.current { EndedKeeps(k, u); } else { ResetKeeps(GoneTask(k, u)); }
  }

  lemma BlockedMoves(k: Kernel, d: nat, forever: bool, onEvent: bool)
    requires Inv(k) && WaitEnabled(k, Block(d, forever, onEvent))
    ensures var n := Blocked(k, d, forever, onEvent);
            Inv(n) && OnlyMoves(k, n, k.current) && n.ticks == k.ticks
  {
    hide Tidy, Queued, Ahead, Events, Enlisted, SetAside;
    BlockedKeeps(k, d, forever, onEvent);
    var l := if forever then TaskLists.Suspended else DelayedList(k, d);
    BlockedAt(k, d, forever, onEvent);
  }

  lemma BlockedAt(k: Kernel, d: nat, forever: bool, onEvent: bool)
    requires Late(k) && k.current in k.b.at && k.b.at[k.current].Ready?
    ensures Blocked(k, d, forever, onEvent).b.at == k.b.at[k.current := if forever then TaskLists.Suspended else DelayedList(k, d)]
  {
    hide Queued, Events, OwnLists, Bitmap;
    if forever {
      SetAsideKeeps(k.b, k.current, TaskLists.Suspended);
    } else {
      DelayFacts(k, k.current, DelayedList(k, d), Low(d));
    }
  }

  /** A waiting task is made ready by a task, or by an interrupt, which has to hold it pending while
      the scheduler is suspended. */
  ghost function Roused(k: Kernel, u: Id, fromIsr: bool): Kernel
    requires Late(k) && u in k.b.at && u in k.event && k.event[u] != OnPending
  {
    if fromIsr then EventWoken(k, u) else Woken(k, u)
  }

  lemma RousedIs(k: Kernel, u: Id, fromIsr: bool)
    requires Late(k) && u in k.b.at && u in k.event && k.event[u] != OnPending
    ensures Roused(k, u, fromIsr) == if fromIsr then EventWoken(k, u) else Woken(k, u)
  {
  }

  lemma RousedKeeps(k: Kernel, u: Id, fromIsr: bool)
    requires Inv(k) && u in k.b.at && Waiting(k.b.at[u]) && u in k.event && k.event[u] != OnPending
    ensures Inv(Roused(k, u, fromIsr)) && OnlyMoves(k, Roused(k, u, fromIsr), u) && Roused(k, u, fromIsr).ticks == k.ticks
  {
    hide Late, MadeReady;
    if fromIsr && k.suspended > 0 {
      EventWokenKeeps(k, u);
    } else {
      WokenKeeps(k, u);
      WokenLate(k, u);
    }
  }
}
