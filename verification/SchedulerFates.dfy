/** What becomes of every task in every run of the scheduler, told from the operations alone: who
    waits for what, until when, who is held, and who is gone. */
module SchedulerFates {
  import opened Sequences
  import opened Priorities
  import opened ReadyBitmap
  import opened Rings
  import opened Scheduler
  import opened SchedulerRuns
  import opened SchedulerTheorems
  import opened TaskLists
  import opened TickCounting
  import opened Ticks

  /** What a task is doing. `Stopped` waits without time limit, or is held by vTaskSuspend; `Held` is
      kept pending until the scheduler is resumed; `Ended` has deleted itself and is to be cleaned up. */
  datatype Fate =
    | Absent
    | Awake  // running or ready to
    | Sleeping(d: nat, onEvent: bool)
    | Stopped(onEvent: bool)
    | Held
    | Ended

  function Spot(onEvent: bool): Place { if onEvent then OnObject else Nowhere }

  predicate Is(k: Kernel, u: Id, fate: Fate) {
    match fate
    case Absent => u !in k.b.at
    case Awake => u in k.b.at && k.b.at[u].Ready?
    case Sleeping(d, onEvent) => IsDelayed(k, u) && k.due[u] == d && At(k, u, Spot(onEvent))
    case Stopped(onEvent) => At(k, u, Spot(onEvent)) && k.b.at[u] == TaskLists.Suspended
    case Held => At(k, u, OnPending)
    case Ended => u in k.b.at && k.b.at[u] == Termination
  }

  /** What an operation makes of the fate of task `u`, at clock value `time` with `ticks` ticks come so
      far, the scheduler suspended `depth` times and task `current` running. */
  function NextFate(fate: Fate, op: KernelOp, u: Id, time: nat, ticks: nat, depth: nat, current: Id): Fate {
    match op
    case Clock(c) => NextOnClock(fate, c, time, ticks, depth)
    case Wait(w) => if u == (if w.Block? then current else w.u) then NextOnWait(w, depth) else fate
    case Task(o) => if u == o.u then NextOnTask(fate, o, depth, current) else fate
  }

  /** A tick that is counted wakes who is due by it; the last resume wakes who is held pending and who is
      due by the ticks that have come. */
  function NextOnClock(fate: Fate, op: ClockOp, time: nat, ticks: nat, depth: nat): Fate {
    match op
    case Tick => if depth == 0 && fate.Sleeping? && fate.d <= time + 1 then Awake else fate
    case ResumeAll => if depth == 1 && (fate.Held? || (fate.Sleeping? && fate.d <= ticks)) then Awake else fate
    case _ => fate
  }

  function NextOnWait(op: WaitOp, depth: nat): Fate {
    match op
    case Block(d, forever, onEvent) => if forever then Stopped(onEvent) else Sleeping(d, onEvent)
    case EventWake(_) => Rising(true, depth)
    case UnorderedWake(_) => Awake
    case NotifyWake(_, fromIsr) => Rising(fromIsr, depth)
  }

  /** An interrupt cannot move a task while the scheduler is suspended. */
  function Rising(held: bool, depth: nat): Fate { if held && depth > 0 then Held else Awake }

  function NextOnTask(fate: Fate, op: TaskOp, depth: nat, current: Id): Fate {
    match op
    case Create(_, _) => Awake
    case Suspend(_) => Stopped(false)
    case Resume(_, waiting, fromIsr) => if fate == Stopped(false) && !waiting then Rising(fromIsr, depth) else fate
    case Delete(u) => if u == current then Ended else Absent
    case CleanUp(_) => Absent
    case Reprioritise(_, _) => fate
  }

  // Waking leaves the others alone.

  /** From `k` to `n` tasks may have become ready, and nothing else has happened to any. */
  ghost predicate OnlyWakes(k: Kernel, n: Kernel) {
    && n.b.at.Keys == k.b.at.Keys && n.event.Keys == k.event.Keys && n.b.tcbs == k.b.tcbs && n.due == k.due && n.current == k.current
    && forall v :: v in k.b.at && v in k.event && v in n.b.at && v in n.event ==>
         (n.b.at[v] == k.b.at[v] && n.event[v] == k.event[v]) || (n.b.at[v].Ready? && n.event[v] == Nowhere)
  }

  lemma OnlyWakesTwice(k: Kernel, m: Kernel, n: Kernel)
    requires OnlyWakes(k, m) && OnlyWakes(m, n)
    ensures OnlyWakes(k, n)
  {
  }

  lemma WokenOnly(k: Kernel, u: Id)
    requires Late(k) && u in k.b.at && Waiting(k.b.at[u])
    ensures OnlyWakes(k, Woken(k, u))
  {
    hide Queued, Tidy, MadeReady;
    WokenLate(k, u);
  }

  lemma {:induction false} DueReadiedOnly(k: Kernel)
    requires Late(k) && k.suspended == 0
    ensures OnlyWakes(k, DueReadied(k))
    decreases |Items(k.b, Current(k))|
  {
    hide Queued, Tidy, OnlyWakes, Events;
    var c := Items(k.b, Current(k));
    if c != [] { HeadWakesFirst(k); }
    if c == [] || Low(k.time) < Low(k.due[c[0]]) {
      SameWakes(k, UnblockReset(k));
    } else {
      WokenLate(k, c[0]);
      WokenExpired(k, c[0], c[0]);
      WokenOnly(k, c[0]);
      DueReadiedOnly(Woken(k, c[0]));
      OnlyWakesTwice(k, Woken(k, c[0]), DueReadied(Woken(k, c[0])));
    }
  }

  lemma SameWakes(k: Kernel, n: Kernel)
    requires n.b == k.b && n.event == k.event && n.due == k.due && n.current == k.current
    ensures OnlyWakes(k, n)
  {
  }

  lemma SteadyLate(k: Kernel)
    requires Steady(k)
    ensures Late(k)
  {
  }

  lemma AdvancedOnly(k: Kernel, t: nat)
    requires Late(k) && k.pended > 0
    ensures OnlyWakes(k, Advanced(k, t)) && Advanced(k, t).suspended == k.suspended
  {
    hide Late, OnlyWakes, Low, Items;
    SameWakes(k, Advanced(k, t));
  }

  lemma TickedOnly(k: Kernel, t: nat)
    requires Steady(k) && k.pended > 0 && k.suspended == 0 && t == k.time + 1
    ensures OnlyWakes(k, Ticked(k, t))
  {
    SteadyLate(k);
    hide Steady, Late, OnlyWakes, DueReadied, Low, Advanced;
    AdvancedLate(k, t);
    AdvancedOnly(k, t);
    var n := Advanced(k, t);
    if Low(t) >= n.nextUnblock {
      DueReadiedOnly(n);
      OnlyWakesTwice(k, n, DueReadied(n));
    }
  }

  lemma {:induction false} CaughtUpOnly(k: Kernel, t: nat, n: nat)
    requires Steady(k) && k.suspended == 0 && n <= k.pended && t == k.time + 1
    ensures OnlyWakes(k, CaughtUp(k, t, n))
    decreases n
  {
    hide Steady, Ticked, OnlyWakes;
    if n == 0 {
      SameWakes(k, k);
    } else {
      TickedKeeps(k, t);
      TickedOnly(k, t);
      CaughtUpOnly(Ticked(k, t), t + 1, n - 1);
      OnlyWakesTwice(k, Ticked(k, t), CaughtUp(Ticked(k, t), t + 1, n - 1));
    }
  }

  lemma {:induction false} DrainedOnly(k: Kernel)
    requires Steady(k)
    ensures OnlyWakes(k, Drained(k))
    decreases |k.pending.items|
  {
    hide Queued, Tidy, OnlyWakes, Ahead;
    if k.pending.items == [] {
      SameWakes(k, k);
    } else {
      var u := k.pending.items[0];
      PendingIsWaiting(k, u);
      WokenKeeps(k, u);
      WokenOnly(k, u);
      DrainedOnly(Woken(k, u));
      OnlyWakesTwice(k, Woken(k, u), Drained(Woken(k, u)));
    }
  }

  lemma DrainedAllSame(k: Kernel)
    requires Steady(k) && Late(Drained(k))
    ensures var d, n := Drained(k), DrainedAll(k);
            n.b == d.b && n.event == d.event && n.due == d.due && n.current == d.current
  {
    hide Steady, Late, Drained, Items, Low;
  }

  lemma DrainedAllOnly(k: Kernel)
    requires Steady(k)
    ensures OnlyWakes(k, DrainedAll(k))
  {
    DrainedKeeps(k);
    SteadyLate(Drained(k));
    hide Steady, Late, OnlyWakes, Drained, DrainedAll;
    DrainedOnly(k);
    DrainedAllSame(k);
    SameWakes(Drained(k), DrainedAll(k));
    OnlyWakesTwice(k, Drained(k), DrainedAll(k));
  }

  // Operations on the clock and the processor.

  lemma TickOnly(k: Kernel, t: nat)
    requires Inv(k) && t == k.time + 1
    ensures OnlyWakes(k, TickCame(k, t))
  {
    PendedKeeps(k);
    hide Steady, OnlyWakes, Ticked;
    SameWakes(k, Pended(k));
    if k.suspended == 0 {
      TickedOnly(Pended(k), t);
      OnlyWakesTwice(k, Pended(k), Ticked(Pended(k), t));
    }
  }

  lemma ResumeOnly(k: Kernel, t: nat)
    requires Inv(k) && k.suspended > 0 && t == k.time + 1
    ensures OnlyWakes(k, ResumedAll(k, t))
  {
    DrainedAllKeeps(k);
    hide Steady, OnlyWakes, DrainedAll, CaughtUp, PendingWakes;
    if k.suspended > 1 {
      SameWakes(k, ResumedAll(k, t));
    } else {
      DrainedAllOnly(k);
      CaughtUpOnly(DrainedAll(k), t, k.pended);
      OnlyWakesTwice(k, DrainedAll(k), ResumedAll(k, t));
    }
  }

  /** The fates that can be: tasks with a container have an event list item, and only waiting ones use it. */
  lemma FateHas(k: Kernel, u: Id)
    requires Inv(k) && u in k.b.at
    ensures u in k.event && u in k.b.tcbs && (k.event[u] != Nowhere ==> Waiting(k.b.at[u]))
    ensures k.suspended == 0 ==> k.event[u] != OnPending
  {
    NobodyPends(k, u);
    hide Tidy, Queued, Ahead;
  }

  /** A task that is known to have been woken, or not, by a step that only wakes. */
  lemma WakeFate(k: Kernel, n: Kernel, u: Id, fate: Fate, woken: bool)
    requires OnlyWakes(k, n) && Is(k, u, fate)
    requires u in k.b.at ==>
               && u in k.event && u in k.b.tcbs && (k.event[u] != Nowhere ==> Waiting(k.b.at[u]))
               && n.b.at[u] == (if woken then Ready(k.b.tcbs[u].priority) else k.b.at[u])
    ensures Is(n, u, if u in k.b.at && woken then Awake else fate)
  {
  }

  lemma TickFate(k: Kernel, t: nat, u: Id, fate: Fate)
    requires Inv(k) && t == k.time + 1 && Is(k, u, fate)
    ensures Is(TickCame(k, t), u, NextOnClock(fate, Tick, k.time, k.ticks, k.suspended))
  {
    hide Inv, Steady, TickCame, OnlyWakes;
    TickCameKeeps(k, t);
    TickOnly(k, t);
    if u in k.b.at { FateHas(k, u); }
    if k.suspended == 0 {
      WakeFate(k, TickCame(k, t), u, fate, IsDelayed(k, u) && k.due[u] <= k.time + 1);
    }
  }

  lemma ResumeFate(k: Kernel, t: nat, u: Id, fate: Fate)
    requires Inv(k) && k.suspended > 0 && t == k.time + 1 && Is(k, u, fate)
    ensures Is(ResumedAll(k, t), u, NextOnClock(fate, ResumeAll, k.time, k.ticks, k.suspended))
  {
    hide Inv, Steady, ResumedAll, OnlyWakes;
    ResumedAllKeeps(k, t);
    ResumeOnly(k, t);
    if u in k.b.at { FateHas(k, u); }
    if k.suspended == 1 {
      OnlyWakesKeys(k, ResumedAll(k, t));
      WakeFate(k, ResumedAll(k, t), u, fate,
               (u in k.event && k.event[u] == OnPending) || (IsDelayed(k, u) && k.due[u] <= k.ticks));
    }
  }

  lemma OnlyWakesKeys(k: Kernel, n: Kernel)
    requires OnlyWakes(k, n)
    ensures n.b.at.Keys == k.b.at.Keys
  {
  }

  lemma SameFate(k: Kernel, n: Kernel, u: Id, fate: Fate)
    requires Is(k, u, fate) && n.b.at == k.b.at && n.event == k.event && n.due == k.due
    ensures Is(n, u, fate)
  {
  }

  lemma ClockFate(k: Kernel, op: ClockOp, t: nat, u: Id, fate: Fate)
    requires Inv(k) && ClockEnabled(k, op) && t == k.time + 1 && Is(k, u, fate)
    ensures Is(ClockStep(k, op, t), u, NextOnClock(fate, op, k.time, k.ticks, k.suspended))
  {
    hide Inv, Steady, TickCame, ResumedAll, UnblockReset, Switched, Is;
    match op
    case Tick => TickFate(k, t, u, fate);
    case SuspendAll => SameFate(k, k.(suspended := k.suspended + 1), u, fate);
    case ResumeAll => ResumeFate(k, t, u, fate);
    case ResetUnblock => InvLate(k); ResetKeeps(k); SameFate(k, UnblockReset(k), u, fate);
    case Switch => InvLate(k); SwitchedKeeps(k); SameFate(k, Switched(k), u, fate);
  }

  lemma InvLate(k: Kernel)
    requires Inv(k)
    ensures Steady(k) && Late(k)
  {
  }

  // Operations on waiting tasks.

  lemma MovesOthers(k: Kernel, n: Kernel, w: Id, u: Id, fate: Fate)
    requires Inv(k) && OnlyMoves(k, n, w) && u != w && Is(k, u, fate) && (u in n.b.at ==> u in k.b.at)
    ensures Is(n, u, fate)
  {
    hide Inv;
    if u in k.b.at { FateHas(k, u); }
  }

  lemma BlockedFields(k: Kernel, d: nat, forever: bool, onEvent: bool)
    requires Late(k) && k.current in k.b.at
    ensures var n := Blocked(k, d, forever, onEvent);
            && n.event == (if onEvent then k.event[k.current := OnObject] else k.event)
            && n.due == (if forever then k.due else k.due[k.current := d])
  {
    hide Late, SetAside, Enlisted, Low, Epoch;
  }

  lemma BlockedIs(k: Kernel, n: Kernel, l: ListId, d: nat, forever: bool, onEvent: bool)
    requires k.current in k.b.at && k.current in k.event && k.event[k.current] == Nowhere
    requires n.b.at == k.b.at[k.current := l]
    requires n.event == (if onEvent then k.event[k.current := OnObject] else k.event)
    requires n.due == (if forever then k.due else k.due[k.current := d])
    requires if forever then l == TaskLists.Suspended else l == DelayedOne || l == DelayedTwo
    ensures Is(n, k.current, if forever then Stopped(onEvent) else Sleeping(d, onEvent)) && n.b.at.Keys == k.b.at.Keys
  {
  }

  lemma DelayedListIs(k: Kernel, d: nat)
    ensures DelayedList(k, d) == DelayedOne || DelayedList(k, d) == DelayedTwo
  {
    hide Epoch;
  }

  lemma BlockFate(k: Kernel, d: nat, forever: bool, onEvent: bool)
    requires Inv(k) && WaitEnabled(k, Block(d, forever, onEvent))
    ensures var n := Blocked(k, d, forever, onEvent);
            Is(n, k.current, if forever then Stopped(onEvent) else Sleeping(d, onEvent)) && n.b.at.Keys == k.b.at.Keys
  {
    InvLate(k);
    hide Inv, Steady, Late, Blocked, Waiting, DelayedList, Is;
    FateHas(k, k.current);
    NotWaiting(k.b.at[k.current]);
    DelayedListIs(k, d);
    BlockedAt(k, d, forever, onEvent);
    BlockedFields(k, d, forever, onEvent);
    BlockedIs(k, Blocked(k, d, forever, onEvent), if forever then TaskLists.Suspended else DelayedList(k, d), d, forever, onEvent);
  }

  lemma NotWaiting(l: ListId)
    requires l.Ready?
    ensures !Waiting(l)
  {
  }

  lemma WokenFate(k: Kernel, u: Id)
    requires Inv(k) && u in k.b.at && Waiting(k.b.at[u])
    ensures Is(Woken(k, u), u, Awake) && Woken(k, u).b.at.Keys == k.b.at.Keys
  {
    InvLate(k);
    hide Inv, Steady, Late, Woken, Is, Left, Items;
    WokenLate(k, u);
    AwakeNow(Woken(k, u), u);
  }

  lemma AwakeNow(n: Kernel, u: Id)
    requires u in n.b.at && n.b.at[u].Ready?
    ensures Is(n, u, Awake)
  {
  }

  lemma StoppedNow(n: Kernel, u: Id)
    requires u in n.b.at && n.b.at[u] == TaskLists.Suspended && u in n.event && n.event[u] == Nowhere
    ensures Is(n, u, Stopped(false))
  {
  }

  lemma HeldFields(k: Kernel, u: Id)
    requires Late(k) && u in k.b.at && u in k.event && k.event[u] != OnPending && k.suspended > 0
    ensures EventWoken(k, u).event == k.event[u := OnPending] && EventWoken(k, u).b == k.b
  {
    hide Late;
  }

  lemma HeldIs(k: Kernel, n: Kernel, u: Id)
    requires u in k.b.at && n.event == k.event[u := OnPending] && n.b == k.b
    ensures Is(n, u, Held) && n.b.at.Keys == k.b.at.Keys
  {
  }

  lemma EventWokenFate(k: Kernel, u: Id)
    requires Inv(k) && u in k.b.at && Waiting(k.b.at[u]) && u in k.event && k.event[u] != OnPending
    ensures Is(EventWoken(k, u), u, Rising(true, k.suspended)) && EventWoken(k, u).b.at.Keys == k.b.at.Keys
  {
    InvLate(k);
    hide Inv, Steady, Late, Woken, Is;
    if k.suspended == 0 {
      WokenFate(k, u);
    } else {
      HeldFields(k, u);
      HeldIs(k, EventWoken(k, u), u);
    }
  }

  lemma RousedFate(k: Kernel, u: Id, fromIsr: bool)
    requires Inv(k) && u in k.b.at && Waiting(k.b.at[u]) && u in k.event && k.event[u] != OnPending
    ensures Is(Roused(k, u, fromIsr), u, Rising(fromIsr, k.suspended)) && Roused(k, u, fromIsr).b.at.Keys == k.b.at.Keys
  {
    InvLate(k);
    hide Inv, Steady, Late, Roused, EventWoken, Woken;
    RousedIs(k, u, fromIsr);
    if fromIsr { EventWokenFate(k, u); } else { WokenFate(k, u); }
  }

  lemma WaitFate(k: Kernel, op: WaitOp, u: Id, fate: Fate)
    requires Inv(k) && WaitEnabled(k, op) && Is(k, u, fate)
    ensures Is(WaitStep(k, op), u, if u == Whom(k, op) then NextOnWait(op, k.suspended) else fate)
  {
    InvLate(k);
    hide Inv, Steady, Late, Blocked, EventWoken, Woken, Roused, OnlyMoves;
    WaitKeeps(k, op);
    match op {
      case Block(d, forever, onEvent) => BlockFate(k, d, forever, onEvent);
      case EventWake(v) => EventWaits(k, v); EventWokenFate(k, v);
      case UnorderedWake(v) => EventWaits(k, v); WokenFate(k, v);
      case NotifyWake(v, fromIsr) => RousedFate(k, v, fromIsr);
    }
    if u != Whom(k, op) { MovesOthers(k, WaitStep(k, op), Whom(k, op), u, fate); }
  }

  // Operations on tasks.

  lemma CreateFate(k: Kernel, w: Id, p: Level, u: Id, fate: Fate)
    requires Inv(k) && w !in k.b.at && Is(k, u, fate)
    ensures Is(NewTask(k, w, p), u, if u == w then Awake else fate)
  {
    InvLate(k);
    hide Inv, Steady, Late, NewTask, OnlyMoves, Is;
    NewKeeps(k, w, p);
    if u == w { AwakeNow(NewTask(k, w, p), w); }
    if u != w { MovesOthers(k, NewTask(k, w, p), w, u, fate); }
  }

  lemma SuspendedFields(k: Kernel, w: Id)
    requires Late(k) && w in k.b.at
    ensures SuspendedTask(k, w).event == k.event[w := Nowhere]
  {
    hide SetAside, Tidy, Queued;
  }

  lemma SuspendFate(k: Kernel, w: Id, u: Id, fate: Fate)
    requires Inv(k) && Live(k, w) && w != IDLE && Is(k, u, fate)
    ensures Late(k) && Is(SuspendedTask(k, w), u, if u == w then Stopped(false) else fate)
  {
    InvLate(k);
    hide Inv, Steady, Late, SuspendedTask, OnlyMoves, Is;
    SuspendedKeeps(k, w);
    SuspendedFields(k, w);
    if u == w { StoppedNow(SuspendedTask(k, w), w); }
    if u != w { MovesOthers(k, SuspendedTask(k, w), w, u, fate); }
  }

  lemma DeletedAt(k: Kernel, w: Id)
    requires Inv(k) && Live(k, w) && w != IDLE
    ensures DeletedTask(k, w).b.at == if w == k.current then k.b.at[w := Termination] else k.b.at - {w}
  {
    GoneKeeps(k, w);
    EndedKeeps(k, w);
    hide Late, Ahead, EndedTask, GoneTask;
  }

  lemma DeleteFate(k: Kernel, w: Id, u: Id, fate: Fate)
    requires Inv(k) && Live(k, w) && w != IDLE && Is(k, u, fate)
    ensures Is(DeletedTask(k, w), u, if u != w then fate else if w == k.current then Ended else Absent)
  {
    hide Inv, DeletedTask, OnlyMoves;
    DeletedKeeps(k, w);
    DeletedAt(k, w);
    if u != w { MovesOthers(k, DeletedTask(k, w), w, u, fate); }
  }

  lemma CleanUpFate(k: Kernel, w: Id, u: Id, fate: Fate)
    requires Inv(k) && w in Items(k.b, Termination) && Is(k, u, fate)
    ensures w in k.b.at && Late(k) && Is(GoneTask(k, w), u, if u == w then Absent else fate)
  {
    InvLate(k);
    CleanUpKeeps(k, w);
    GoneAt(k, w);
    hide Inv, Steady, Late, GoneTask, OnlyMoves;
    if u != w { MovesOthers(k, GoneTask(k, w), w, u, fate); }
  }

  lemma GoneAt(k: Kernel, w: Id)
    requires Inv(k) && w in Items(k.b, Termination)
    ensures w in k.b.at && GoneTask(k, w).b.at == k.b.at - {w}
  {
    hide Queued, Ahead, Events, GoneTask;
    OnList(k.b, Termination, w);
    GoneKeeps(k, w);
  }

  lemma StoppedIs(k: Kernel, w: Id, fate: Fate)
    requires Is(k, w, fate)
    ensures fate == Stopped(false) <==> w in k.b.at && k.b.at[w] == TaskLists.Suspended && At(k, w, Nowhere)
  {
  }

  predicate Resumable(k: Kernel, w: Id, waiting: bool) {
    w in k.b.at && k.b.at[w] == TaskLists.Suspended && At(k, w, Nowhere) && !waiting
  }

  lemma ResumedIs(k: Kernel, w: Id, waiting: bool, fromIsr: bool)
    requires Inv(k) && Late(k) && w in k.b.at
    ensures if Resumable(k, w, waiting) then ResumedTask(k, w, waiting, fromIsr) == Roused(k, w, fromIsr)
            else ResumedTask(k, w, waiting, fromIsr) == k
  {
    hide Inv, Late, Roused;
  }

  lemma OwnResume(k: Kernel, w: Id, waiting: bool, fromIsr: bool, fate: Fate)
    requires Inv(k) && w in k.b.at && Is(k, w, fate)
    ensures Is(ResumedTask(k, w, waiting, fromIsr), w,
               if fate == Stopped(false) && !waiting then Rising(fromIsr, k.suspended) else fate)
  {
    InvLate(k);
    StoppedIs(k, w, fate);
    hide Inv, Steady, Late, Roused, Is, Rising, ResumedTask;
    ResumedIs(k, w, waiting, fromIsr);
    if Resumable(k, w, waiting) { ResumableRises(k, w, waiting, fromIsr); }
  }

  lemma ResumableRises(k: Kernel, w: Id, waiting: bool, fromIsr: bool)
    requires Inv(k) && Resumable(k, w, waiting)
    ensures Late(k) && k.event[w] != OnPending && Is(Roused(k, w, fromIsr), w, Rising(fromIsr, k.suspended))
  {
    InvLate(k);
    hide Inv, Steady, Late, Roused, Is, Rising;
    RousedFate(k, w, fromIsr);
  }

  lemma OthersResume(k: Kernel, w: Id, waiting: bool, fromIsr: bool, u: Id, fate: Fate)
    requires Inv(k) && w in k.b.at && u != w && Is(k, u, fate)
    ensures Is(ResumedTask(k, w, waiting, fromIsr), u, fate)
  {
    InvLate(k);
    hide Inv, Steady, Late, Roused, OnlyMoves, Is, Rising, ResumedTask;
    ResumedIs(k, w, waiting, fromIsr);
    if Resumable(k, w, waiting) {
      RousedFate(k, w, fromIsr);
      RousedKeeps(k, w, fromIsr);
      MovesOthers(k, Roused(k, w, fromIsr), w, u, fate);
    }
  }

  lemma ResumeTaskFate(k: Kernel, w: Id, waiting: bool, fromIsr: bool, u: Id, fate: Fate)
    requires Inv(k) && w in k.b.at && Is(k, u, fate)
    ensures Is(ResumedTask(k, w, waiting, fromIsr), u,
               if u == w then NextOnTask(fate, Resume(w, waiting, fromIsr), k.suspended, k.current) else fate)
  {
    hide Inv, Is, ResumedTask;
    if u == w { OwnResume(k, w, waiting, fromIsr, fate); } else { OthersResume(k, w, waiting, fromIsr, u, fate); }
  }

  lemma RetagIs(k: Kernel, n: Kernel, u: Id, fate: Fate)
    requires Is(k, u, fate) && n.due == k.due && n.event == k.event && n.b.at.Keys == k.b.at.Keys
    requires u in k.b.at ==> if k.b.at[u].Ready? then n.b.at[u].Ready? else n.b.at[u] == k.b.at[u]
    requires u in k.b.at && u in k.event && k.event[u] != Nowhere ==> Waiting(k.b.at[u])
    ensures Is(n, u, fate)
  {
  }

  lemma RetagFate(k: Kernel, w: Id, c: Change, u: Id, fate: Fate)
    requires Inv(k) && w in k.b.at && w in k.b.tcbs && Allowed(k.b.tcbs[w], c) && Is(k, u, fate)
    ensures Late(k) && Is(Retagged(k, w, c), u, fate)
  {
    InvLate(k);
    hide Inv, Steady, Late, Retagged, Changed, Is, Waiting;
    RetaggedKeeps(k, w, c);
    if u in k.b.at {
      FateHas(k, u);
      if k.b.at[u].Ready? { RetaggedReady(k, w, c, u); }
    }
    RetagIs(k, Retagged(k, w, c), u, fate);
  }

  lemma RetaggedReady(k: Kernel, w: Id, c: Change, u: Id)
    requires Inv(k) && w in k.b.at && w in k.b.tcbs && Allowed(k.b.tcbs[w], c) && u in k.b.at && k.b.at[u].Ready?
    ensures u in Retagged(k, w, c).b.at && Retagged(k, w, c).b.at[u].Ready?
  {
    hide Queued, Ahead, Events, Tidy, Reprioritised;
    ReprioritisedAt(k.b, w, c);
  }

  lemma TaskFate(k: Kernel, op: TaskOp, u: Id, fate: Fate)
    requires Inv(k) && TaskEnabled(k, op) && Is(k, u, fate)
    ensures Is(TaskStep(k, op), u, if u == op.u then NextOnTask(fate, op, k.suspended, k.current) else fate)
  {
    hide Inv, NewTask, SuspendedTask, DeletedTask, GoneTask, Retagged, Roused;
    match op
    case Create(w, p) => CreateFate(k, w, p, u, fate);
    case Suspend(w) => SuspendFate(k, w, u, fate);
    case Resume(w, waiting, fromIsr) => ResumeTaskFate(k, w, waiting, fromIsr, u, fate);
    case Delete(w) => DeleteFate(k, w, u, fate);
    case CleanUp(w) => CleanUpFate(k, w, u, fate);
    case Reprioritise(w, c) => RetagFate(k, w, c, u, fate);
  }

  // Whole runs.

  lemma StepFate(k: Kernel, op: KernelOp, t: nat, u: Id, fate: Fate)
    requires Inv(k) && Enabled(k, op) && t == k.time + 1 && Is(k, u, fate)
    ensures Is(Step(k, op, t), u, NextFate(fate, op, u, k.time, k.ticks, k.suspended, k.current))
  {
    hide Inv, ClockStep, WaitStep, TaskStep, Is;
    match op
    case Clock(c) => ClockFate(k, c, t, u, fate);
    case Wait(w) => WaitFate(k, w, u, fate);
    case Task(o) => TaskFate(k, o, u, fate);
  }

  lemma NextIsFate(k: Kernel, op: KernelOp, n: Kernel, u: Id, fate: Fate)
    requires Inv(k) && SchedulerTheorems.Next(k, op, n) && Is(k, u, fate)
    ensures Is(n, u, NextFate(fate, op, u, k.time, k.ticks, k.suspended, k.current))
  {
    hide Inv, Is, Step, NextFate;
    StepFate(k, op, k.time + 1, u, fate);
  }

  /** The fate of task `u` after a run, from its operations. */
  function FateOf(states: seq<Kernel>, ops: seq<KernelOp>, u: Id, fate: Fate): Fate
    requires |states| == |ops| + 1
    decreases |ops|
  {
    if ops == [] then fate else
      var n := |ops| - 1;
      var k := states[n];
      NextFate(FateOf(states[..n + 1], ops[..n], u, fate), ops[n], u, k.time, k.ticks, k.suspended, k.current)
  }

  /** In every run every task is where the operations have put it: one that blocked until `d` sleeps
      until the clock reaches `d` or it is woken; one that blocked for ever, or was suspended, stays so
      until it is woken, or resumed; one woken by an interrupt while the scheduler is suspended is held
      until that is over, and no longer; one deleted is gone; and no operation moves anybody else. */
  lemma {:induction false} FatesFollow(states: seq<Kernel>, ops: seq<KernelOp>, u: Id, fate: Fate)
    requires SchedulerTheorems.Run(states, ops) && Is(states[0], u, fate)
    ensures Is(states[|ops|], u, FateOf(states, ops, u, fate))
    decreases |ops|
  {
    if ops != [] {
      var n := |ops| - 1;
      var k := states[n];
      RunKeepsInv(states[..n + 1], ops[..n]);
      FatesFollow(states[..n + 1], ops[..n], u, fate);
      hide Inv, Is, Step, Enabled, SchedulerTheorems.Next, NextFate;
      assert states[..n + 1][n] == k;
      NextIsFate(k, ops[n], states[n + 1], u, FateOf(states[..n + 1], ops[..n], u, fate));
    }
  }

  // What else an operation changes.

  /** Only these change the nesting depth of vTaskSuspendAll, the running task, the priorities of a task. */
  ghost predicate Accounted(k: Kernel, op: KernelOp, n: Kernel, u: Id) {
    && n.suspended == k.suspended + (if op == Clock(SuspendAll) then 1 else if op == Clock(ResumeAll) then -1 else 0)
    && (op != Clock(Switch) || k.suspended > 0 ==> n.current == k.current)
    && (op == Clock(Switch) && k.suspended == 0 ==> Turn(k, n))
    && (u in k.b.tcbs && u in n.b.tcbs && !(op.Task? && (op.o.Create? || op.o.Reprioritise?) && op.o.u == u) ==> n.b.tcbs[u] == k.b.tcbs[u])
    && (op.Task? && op.o.Create? && op.o.u == u ==> u in n.b.tcbs && n.b.tcbs[u] == Tcb(op.o.p, op.o.p, 0, EventValue(op.o.p)))
    && (op.Task? && op.o.Reprioritise? && op.o.u == u ==>
          u in k.b.tcbs && Allowed(k.b.tcbs[u], op.o.c) && u in n.b.tcbs && n.b.tcbs[u] == Changed(k.b.tcbs[u], op.o.c))
  }

  /** A switch runs the ready task of the highest priority whose turn it is, which then comes last. */
  ghost predicate Turn(k: Kernel, n: Kernel) {
    && 0 <= Highest(k.b.top) < MAX_PRIORITIES
    && var l := Ready(Highest(k.b.top));
    && l in k.b.lists && l in n.b.lists
    && var r, r' := k.b.lists[l], n.b.lists[l];
    && r.Valid() && r'.Valid() && r.items != []
    && n.current == r.Turns()[0] && r'.Turns() == r.Turns()[1..] + [r.Turns()[0]]
    && (forall v :: v in k.b.at && k.b.at[v].Ready? && v in k.b.tcbs ==> k.b.tcbs[v].priority <= Highest(k.b.top))
  }

  lemma WakingSettles(k: Kernel, u: Id, fromIsr: bool)
    requires Inv(k) && u in k.b.at && Waiting(k.b.at[u]) && u in k.event && k.event[u] != OnPending
    ensures Late(k) && Roused(k, u, fromIsr).b.tcbs == k.b.tcbs
    ensures Roused(k, u, fromIsr).suspended == k.suspended && Roused(k, u, fromIsr).current == k.current
  {
    InvLate(k);
    WokenLate(k, u);
    hide Inv, Steady, Late, MadeReady;
  }

  lemma BlockSettles(k: Kernel, d: nat, forever: bool, onEvent: bool)
    requires Inv(k) && WaitEnabled(k, Block(d, forever, onEvent))
    ensures var n := Blocked(k, d, forever, onEvent); n.b.tcbs == k.b.tcbs && n.suspended == k.suspended && n.current == k.current
  {
    InvLate(k);
    if forever {
      SetAsideKeeps(k.b, k.current, TaskLists.Suspended);
    } else {
      EnlistedTcbs(k, k.current, DelayedList(k, d), Low(d));
    }
    hide Inv, Steady, Late, SetAside, Enlisted, Low, Epoch;
  }

  lemma EnlistedTcbs(k: Kernel, u: Id, l: ListId, value: Tick)
    requires Late(k) && u in k.b.at && (l == Current(k) || l == Overflow(k))
    ensures Enlisted(k, u, l, value).tcbs == k.b.tcbs
  {
    hide Queued, Events, Bitmap, OwnLists, Total;
    UnlinkKeeps(k.b, u);
    LeftItems(k.b, l, u);
    UnlinkItems(k.b, u, l);
    hide Late, Left, Items, Partition;
  }

  /** The parts of Accounted that do not concern a switch. */
  ghost predicate Plain(k: Kernel, n: Kernel) {
    n.suspended == k.suspended && n.current == k.current
  }

  lemma ClockPlain(k: Kernel, op: ClockOp, n: Kernel, u: Id)
    requires !op.Switch? && n.current == k.current && n.b.tcbs == k.b.tcbs
    requires n.suspended == k.suspended + (if op.SuspendAll? then 1 else if op.ResumeAll? then -1 else 0)
    ensures Accounted(k, Clock(op), n, u)
  {
  }

  lemma SwitchPlain(k: Kernel, n: Kernel, u: Id)
    requires n.b.tcbs == k.b.tcbs && n.suspended == k.suspended && (if k.suspended == 0 then Turn(k, n) else n == k)
    ensures Accounted(k, Clock(Switch), n, u)
  {
    hide Turn;
  }

  lemma TickPlain(k: Kernel, t: nat)
    requires Inv(k) && t == k.time + 1
    ensures TickCame(k, t).current == k.current && TickCame(k, t).b.tcbs == k.b.tcbs && TickCame(k, t).suspended == k.suspended
  {
    hide Inv, Steady, TickCame, WakesDue;
    TickCameKeeps(k, t);
    TickOnly(k, t);
  }

  lemma ResumePlain(k: Kernel, t: nat)
    requires Inv(k) && k.suspended > 0 && t == k.time + 1
    ensures var n := ResumedAll(k, t); n.current == k.current && n.b.tcbs == k.b.tcbs && n.suspended == k.suspended - 1
  {
    hide Inv, Steady, ResumedAll, ResumeWakes;
    ResumedAllKeeps(k, t);
    ResumeOnly(k, t);
  }

  lemma ClockAccounts(k: Kernel, op: ClockOp, t: nat, u: Id)
    requires Inv(k) && ClockEnabled(k, op) && t == k.time + 1
    ensures Accounted(k, Clock(op), ClockStep(k, op, t), u)
  {
    hide Inv, Steady, Late, TickCame, ResumedAll, UnblockReset, Switched, Turn, Accounted;
    match op
    case Tick => TickPlain(k, t); ClockPlain(k, op, TickCame(k, t), u);
    case SuspendAll => ClockPlain(k, op, k.(suspended := k.suspended + 1), u);
    case ResumeAll => ResumePlain(k, t); ClockPlain(k, op, ResumedAll(k, t), u);
    case ResetUnblock => InvLate(k); ResetKeeps(k); ClockPlain(k, op, UnblockReset(k), u);
    case Switch => SwitchTurns(k); SwitchPlain(k, Switched(k), u);
  }

  lemma TurnedRing(b: Board)
    requires Full(b.lists) && 0 <= Highest(b.top) < MAX_PRIORITIES
    requires b.lists[Ready(Highest(b.top))].Valid() && b.lists[Ready(Highest(b.top))].items != []
    ensures var l := Ready(Highest(b.top));
            && l in Turned(b).lists && Turned(b).tcbs == b.tcbs && Turned(b).lists[l].Valid()
            && Selected(b.lists[l]) == b.lists[l].Turns()[0]
            && Turned(b).lists[l].Turns() == b.lists[l].Turns()[1..] + [b.lists[l].Turns()[0]]
  {
    AdvanceTurns(b.lists[Ready(Highest(b.top))]);
  }

  lemma SwitchedIs(k: Kernel)
    requires Late(k) && Full(k.b.lists) && 0 <= Highest(k.b.top) < MAX_PRIORITIES
    requires k.b.lists[Ready(Highest(k.b.top))].Valid() && k.b.lists[Ready(Highest(k.b.top))].items != []
    ensures Switched(k) == if k.suspended > 0 then k
                           else k.(b := Turned(k.b), current := Selected(k.b.lists[Ready(Highest(k.b.top))]))
  {
    hide Late, Turned, Selected;
  }

  lemma SwitchTurns(k: Kernel)
    requires Inv(k)
    ensures Late(k) && Switched(k).b.tcbs == k.b.tcbs && Switched(k).suspended == k.suspended
    ensures if k.suspended == 0 then Turn(k, Switched(k)) else Switched(k) == k
  {
    InvLate(k);
    IdleReady(k);
    hide Inv, Steady, Late, Switched, Turned, Tidy, Selected;
    ReadyRing(k.b, IDLE);
    SelectsHighest(k.b, IDLE);
    AllReadyBelow(k.b);
    SwitchedIs(k);
    TurnedRing(k.b);
  }

  lemma AllReadyBelow(b: Board)
    requires Tidy(b) && IDLE in b.at && b.at[IDLE].Ready?
    ensures Full(b.lists)
    ensures forall v :: v in b.at && b.at[v].Ready? && v in b.tcbs ==> b.tcbs[v].priority <= Highest(b.top)
  {
    SelectsHighest(b, IDLE);
  }

  lemma IdleReady(k: Kernel)
    requires Late(k)
    ensures Tidy(k.b) && IDLE in k.b.at && k.b.at[IDLE].Ready?
  {
  }

  lemma ReadyRing(b: Board, u: Id)
    requires Tidy(b) && u in b.at && b.at[u].Ready?
    ensures 0 <= Highest(b.top) < MAX_PRIORITIES && Ready(Highest(b.top)) in b.lists && b.lists[Ready(Highest(b.top))].Valid()
  {
    SelectsHighest(b, u);
  }

  lemma PlainAccounts(k: Kernel, op: KernelOp, n: Kernel, u: Id)
    requires Plain(k, n) && !op.Clock? && (op.Task? ==> !op.o.Create? && !op.o.Reprioritise?)
    requires u in k.b.tcbs && u in n.b.tcbs ==> n.b.tcbs[u] == k.b.tcbs[u]
    ensures Accounted(k, op, n, u)
  {
  }

  lemma WaitAccounts(k: Kernel, op: WaitOp, u: Id)
    requires Inv(k) && WaitEnabled(k, op)
    ensures Accounted(k, Wait(op), WaitStep(k, op), u)
  {
    InvLate(k);
    hide Inv, Steady, Late, Blocked, EventWoken, Woken, Roused, Accounted;
    match op {
      case Block(d, forever, onEvent) => BlockSettles(k, d, forever, onEvent);
      case EventWake(v) => EventWaits(k, v); RousedIs(k, v, true); WakingSettles(k, v, true);
      case UnorderedWake(v) => EventWaits(k, v); RousedIs(k, v, false); WakingSettles(k, v, false);
      case NotifyWake(v, fromIsr) => WakingSettles(k, v, fromIsr);
    }
    PlainAccounts(k, Wait(op), WaitStep(k, op), u);
  }

  lemma AsideAccounts(k: Kernel, w: Id)
    requires Inv(k) && Live(k, w) && w != IDLE
    ensures Late(k) && Plain(k, SuspendedTask(k, w)) && Plain(k, EndedTask(k, w))
    ensures SuspendedTask(k, w).b.tcbs == k.b.tcbs && EndedTask(k, w).b.tcbs == k.b.tcbs
  {
    InvLate(k);
    TidyFull(k.b);
    SetAsideKeeps(k.b, w, TaskLists.Suspended);
    SetAsideKeeps(k.b, w, Termination);
    hide Tidy, Queued, Ahead, SetAside;
  }

  lemma GoneAccounts(k: Kernel, w: Id)
    requires Inv(k) && w in k.b.at
    ensures Late(k) && Plain(k, GoneTask(k, w)) && GoneTask(k, w).b.tcbs == k.b.tcbs - {w}
  {
    InvLate(k);
    UnlinkKeeps(k.b, w);
    hide Queued, Ahead;
  }

  lemma DeleteAccounts(k: Kernel, w: Id)
    requires Inv(k) && Live(k, w) && w != IDLE
    ensures Plain(k, DeletedTask(k, w))
    ensures DeletedTask(k, w).b.tcbs == if w == k.current then k.b.tcbs else k.b.tcbs - {w}
  {
    GoneKeeps(k, w);
    AsideAccounts(k, w);
    GoneAccounts(k, w);
    hide Inv, Late, EndedTask, GoneTask;
  }

  lemma NewAccounts(k: Kernel, w: Id, p: Level)
    requires Inv(k) && w !in k.b.at
    ensures Late(k) && Plain(k, NewTask(k, w, p)) && NewTask(k, w, p).b.tcbs == k.b.tcbs[w := Tcb(p, p, 0, EventValue(p))]
  {
    InvLate(k);
    hide Queued, Ahead, Events;
  }

  lemma CreateAccounts(k: Kernel, w: Id, p: Level, n: Kernel, u: Id)
    requires Plain(k, n) && n.b.tcbs == k.b.tcbs[w := Tcb(p, p, 0, EventValue(p))]
    ensures Accounted(k, Task(Create(w, p)), n, u)
  {
  }

  lemma RetagAccounts(k: Kernel, w: Id, c: Change, n: Kernel, u: Id)
    requires Plain(k, n) && w in k.b.tcbs && Allowed(k.b.tcbs[w], c) && n.b.tcbs == k.b.tcbs[w := Changed(k.b.tcbs[w], c)]
    ensures Accounted(k, Task(Reprioritise(w, c)), n, u)
  {
    hide Changed, Allowed;
  }

  lemma ResumedAccounts(k: Kernel, w: Id, waiting: bool, fromIsr: bool, u: Id)
    requires Inv(k) && w in k.b.at
    ensures Accounted(k, Task(Resume(w, waiting, fromIsr)), ResumedTask(k, w, waiting, fromIsr), u)
  {
    InvLate(k);
    hide Inv, Steady, Late, Roused, Accounted;
    if k.b.at[w] == TaskLists.Suspended && At(k, w, Nowhere) && !waiting { WakingSettles(k, w, fromIsr); }
    PlainAccounts(k, Task(Resume(w, waiting, fromIsr)), ResumedTask(k, w, waiting, fromIsr), u);
  }

  lemma TaskAccounts(k: Kernel, op: TaskOp, u: Id)
    requires Inv(k) && TaskEnabled(k, op)
    ensures Accounted(k, Task(op), TaskStep(k, op), u)
  {
    InvLate(k);
    hide Inv, Steady, Late, NewTask, SuspendedTask, DeletedTask, GoneTask, Retagged, ResumedTask, Accounted;
    match op
    case Create(w, p) => NewAccounts(k, w, p); CreateAccounts(k, w, p, NewTask(k, w, p), u);
    case Suspend(w) => AsideAccounts(k, w); PlainAccounts(k, Task(op), SuspendedTask(k, w), u);
    case Resume(w, waiting, fromIsr) => ResumedAccounts(k, w, waiting, fromIsr, u);
    case Delete(w) => DeleteAccounts(k, w); PlainAccounts(k, Task(op), DeletedTask(k, w), u);
    case CleanUp(w) => CleanUpKeeps(k, w); GoneAccounts(k, w); PlainAccounts(k, Task(op), GoneTask(k, w), u);
    case Reprioritise(w, c) => RetaggedKeeps(k, w, c); RetagPlain(k, w, c); RetagAccounts(k, w, c, Retagged(k, w, c), u);
  }

  lemma RetagPlain(k: Kernel, w: Id, c: Change)
    requires Late(k) && w in k.b.at && Allowed(k.b.tcbs[w], c)
    ensures Plain(k, Retagged(k, w, c))
  {
    hide Late, Reprioritised;
  }

  lemma StepAccounts(k: Kernel, op: KernelOp, n: Kernel, u: Id)
    requires Inv(k) && SchedulerTheorems.Next(k, op, n)
    ensures Accounted(k, op, n, u)
  {
    hide Inv, ClockStep, WaitStep, TaskStep, Accounted;
    match op
    case Clock(c) => ClockAccounts(k, c, k.time + 1, u);
    case Wait(w) => WaitAccounts(k, w, u);
    case Task(o) => TaskAccounts(k, o, u);
  }

  /** In every run each operation changes the nesting depth, the running task and the TCBs only as asked. */
  lemma {:induction false} OperationsAccount(states: seq<Kernel>, ops: seq<KernelOp>, i: nat, u: Id)
    requires SchedulerTheorems.Run(states, ops) && i < |ops|
    ensures Accounted(states[i], ops[i], states[i + 1], u)
    decreases |ops|
  {
    hide Accounted, Inv, SchedulerTheorems.Next;
    var n := |ops| - 1;
    if i == n {
      RunKeepsInv(states[..n + 1], ops[..n]);
      assert states[..n + 1][n] == states[n];
      StepAccounts(states[n], ops[n], states[n + 1], u);
    } else {
      OperationsAccount(states[..n + 1], ops[..n], i, u);
    }
  }

  lemma MadeReadyAppends(b: Board, u: Id)
    requires Tidy(b) && u in b.at && !b.at[u].Ready?
    ensures u in b.tcbs && Ready(b.tcbs[u].priority) in b.lists && b.lists[Ready(b.tcbs[u].priority)].Valid()
    ensures var l := Ready(b.tcbs[u].priority);
            && u !in b.lists[l].items
            && l in MadeReady(b, u).lists && MadeReady(b, u).lists[l] == InsertEnd(b.lists[l], u)
  {
    hide Bitmap, Total;
    UnlinkKeeps(b, u);
    NotOn(b, u, Ready(b.tcbs[u].priority));
  }

  lemma CreatedAppends(b: Board, u: Id, p: Level)
    requires Tidy(b) && u !in b.at
    ensures Ready(p) in b.lists && b.lists[Ready(p)].Valid() && u !in b.lists[Ready(p)].items
    ensures Ready(p) in Created(b, u, p).lists && Created(b, u, p).lists[Ready(p)] == InsertEnd(b.lists[Ready(p)], u)
  {
    hide Bitmap, Total;
  }

  /** vTaskPrioritySet gives a ready task a new turn even if its priority in use stays the same. */
  lemma RetaggedAppends(b: Board, u: Id, c: Change)
    requires Tidy(b) && u in b.at && b.at[u].Ready? && Allowed(b.tcbs[u], c)
    requires Changed(b.tcbs[u], c).priority != b.tcbs[u].priority || (c.Set? && b.tcbs[u].base != c.p)
    ensures var l := Ready(Changed(b.tcbs[u], c).priority);
            && b.at[u] in b.lists && u in b.lists[b.at[u]].items && l in b.lists && l in Reprioritised(b, u, c).lists
            && var r := if l == b.at[u] then Remove(b.lists[l], u) else b.lists[l];
               r.Valid() && u !in r.items && Reprioritised(b, u, c).lists[l] == InsertEnd(r, u)
  {
    hide Bitmap, Total, Changed;
    PlaceOf(b.lists, b.at, u);
    UnlinkKeeps(b, u);
    RemoveItems(b.lists[b.at[u]], u);
    hide OwnLists;
  }

  ghost predicate ComesLast(r: Ring<Id>, n: Ring<Id>, u: Id) {
    r.Valid() && n.Valid() && n.Turns() == PutAt(r.Turns(), if r.index == 0 then |r.items| else |r.items| - 1, u)
  }

  lemma EndComesLast(r: Ring<Id>, u: Id)
    requires r.Valid() && u !in r.items
    ensures ComesLast(r, InsertEnd(r, u), u)
  {
    InsertEndTurns(r, u);
  }

  /** A task made ready gets its turn after all others of its priority, except that the one selected
      most recently comes after it. */
  lemma RisesLast(b: Board, u: Id)
    requires Tidy(b) && u in b.at && !b.at[u].Ready?
    ensures u in b.tcbs && Ready(b.tcbs[u].priority) in b.lists && Ready(b.tcbs[u].priority) in MadeReady(b, u).lists
    ensures var l := Ready(b.tcbs[u].priority); ComesLast(b.lists[l], MadeReady(b, u).lists[l], u)
  {
    hide Tidy, MadeReady;
    MadeReadyAppends(b, u);
    EndComesLast(b.lists[Ready(b.tcbs[u].priority)], u);
  }

  /** And so does a new task, and a ready task whose priority or base priority has been changed. */
  lemma ChangedComesLast(b: Board, u: Id, c: Change)
    requires Tidy(b) && u in b.at && b.at[u].Ready? && Allowed(b.tcbs[u], c)
    requires Changed(b.tcbs[u], c).priority != b.tcbs[u].priority || (c.Set? && b.tcbs[u].base != c.p)
    ensures var l := Ready(Changed(b.tcbs[u], c).priority);
            && b.at[u] in b.lists && u in b.lists[b.at[u]].items && b.lists[b.at[u]].index <= |b.lists[b.at[u]].items|
            && l in b.lists && l in Reprioritised(b, u, c).lists
            && ComesLast(if l == b.at[u] then Remove(b.lists[l], u) else b.lists[l], Reprioritised(b, u, c).lists[l], u)
  {
    PlaceOf(b.lists, b.at, u);
    hide Tidy, Reprioritised, Changed;
    RetaggedAppends(b, u, c);
    var l := Ready(Changed(b.tcbs[u], c).priority);
    EndComesLast(if l == b.at[u] then Remove(b.lists[l], u) else b.lists[l], u);
  }

  /** Nothing else that happens to a TCB moves its task. */
  lemma OtherwiseStays(b: Board, u: Id, c: Change)
    requires Tidy(b) && u in b.at && Allowed(b.tcbs[u], c)
    requires !b.at[u].Ready? || (Changed(b.tcbs[u], c).priority == b.tcbs[u].priority && (c.Set? ==> b.tcbs[u].base == c.p))
    ensures Reprioritised(b, u, c).lists == b.lists && Reprioritised(b, u, c).at == b.at
  {
    hide Tidy, Changed;
  }

  lemma NewComesLast(b: Board, u: Id, p: Level)
    requires Tidy(b) && u !in b.at
    ensures Full(b.lists) && b.lists[Ready(p)].index <= |b.lists[Ready(p)].items| && Ready(p) in Created(b, u, p).lists
    ensures ComesLast(b.lists[Ready(p)], Created(b, u, p).lists[Ready(p)], u)
  {
    TidyFull(b);
    hide Tidy, Created;
    CreatedAppends(b, u, p);
    EndComesLast(b.lists[Ready(p)], u);
  }
}
