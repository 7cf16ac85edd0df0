/** The scheduler functions of freertos/tasks.c as methods on the kernel's variables: they compute
    with tick counts, and are proved against the unbounded-clock model. */
module KernelTasks {
  import opened Priorities
  import opened ReadyBitmap
  import opened Rings
  import opened Scheduler
  import opened SchedulerRuns
  import opened TaskLists
  import opened TickCounting
  import opened Ticks

  /** A tick count and the clock value it is the low half of. */
  datatype Stamp = Stamp(count: Tick, ghost time: nat)

  type Clock = s: Stamp | s.count == Low(s.time) witness Stamp(0, 0)

  ghost function Times(wake: map<Id, Clock>): map<Id, nat> { map u | u in wake :: wake[u].time }

  function Stamps(due: map<Id, nat>): map<Id, Clock> { map u | u in due :: Stamp(Low(due[u]), due[u]) }

  lemma StampsKeepTimes(due: map<Id, nat>)
    ensures Times(Stamps(due)) == due
  {
  }

  class Tasks {
    var lists: map<ListId, Ring<Id>>
    var at: map<Id, ListId>        // the container of each xStateListItem
    var wake: map<Id, Clock>       // its item value, for tasks that were delayed
    var tcbs: map<Id, Tcb>
    var top: Word                  // uxTopReadyPriority
    var tasks: int                 // uxCurrentNumberOfTasks
    var event: map<Id, Place>      // the container of each xEventListItem
    var pending: Ring<Id>          // xPendingReadyList
    var swapped: bool              // pxDelayedTaskList is the second list
    var current: Id                // pxCurrentTCB
    var tick: Clock                // xTickCount
    var nextUnblock: Tick
    var suspended: nat
    var pendedTicks: nat
    var deleted: int
    ghost var ticks: nat
    ghost var uncounted: nat       // pendedTicks, less those being counted in ResumeAll
    ghost var depth: nat           // suspended, until ResumeAll has dealt with the pending tasks

    ghost function Tables(): Board reads this { Board(lists, at, tcbs, top, tasks) }

    ghost function View(): Kernel
      reads this
    {
      Kernel(Tables(), event, pending, Times(wake), swapped, current, tick.time, nextUnblock, depth, uncounted, ticks, deleted)
    }

    /** Outside the functions of this class the two counts agree with those of the view. */
    ghost predicate Settled() reads this { uncounted == pendedTicks && depth == suspended }

    constructor (k: Kernel)
      ensures View() == k && Settled()
    {
      lists, at, tcbs, top, tasks := k.b.lists, k.b.at, k.b.tcbs, k.b.top, k.b.tasks;
      event, pending, swapped, current := k.event, k.pending, k.swapped, k.current;
      tick, nextUnblock, suspended, pendedTicks, deleted := Stamp(Low(k.time), k.time), k.nextUnblock, k.suspended, k.pended, k.deleted;
      wake := Stamps(k.due);
      ticks, uncounted, depth := k.ticks, k.pended, k.suspended;
      StampsKeepTimes(k.due);
    }

    /** uxListRemove of a state list item; how many items it leaves on the list. */
    method RemoveState(u: Id) returns (left: nat)
      requires u in at && at[u] in lists && Removable(lists[at[u]], u)
      modifies this`lists, this`at
      ensures var l := old(at)[u];
              && lists == old(lists)[l := Remove(old(lists)[l], u)] && at == old(at) - {u}
              && left == |Remove(old(lists)[l], u).items|
    {
      var l := at[u];
      var r := Remove(lists[l], u);
      lists, at := lists[l := r], at - {u};
      left := |r.items|;
    }

    /** uxListRemove of an event list item, if it is on a list. */
    method RemoveEvent(u: Id)
      requires u in event && (event[u] == OnPending ==> Removable(pending, u))
      modifies this`event, this`pending
      ensures event == old(event)[u := Nowhere]
      ensures pending == if old(event)[u] == OnPending then Remove(old(pending), u) else old(pending)
    {
      if event[u] == OnPending {
        pending := Remove(pending, u);
      }
      event := event[u := Nowhere];
    }

    /** prvAddTaskToReadyList. */
    method AddTaskToReadyList(u: Id)
      requires u in tcbs && Ready(tcbs[u].priority) in lists
      requires var r := lists[Ready(tcbs[u].priority)]; r.index <= |r.items|
      modifies this`lists, this`at, this`top
      ensures var l := Ready(tcbs[u].priority);
              && lists == old(lists)[l := InsertEnd(old(lists)[l], u)] && at == old(at)[u := l] && top == Record(old(top), tcbs[u].priority)
    {
      var l := Ready(tcbs[u].priority);
      top := Record(top, tcbs[u].priority);
      lists, at := lists[l := InsertEnd(lists[l], u)], at[u := l];
    }

    /** A waiting task is taken off its lists and made ready. */
    method MakeReady(u: Id)
      requires Late(View()) && u in at && Waiting(at[u])
      modifies this`lists, this`at, this`top, this`event, this`pending
      ensures View() == old(Woken(View(), u))
    {
      ghost var k := View();
      WokenIs(k, u);
      MoveToReady(u);
      assert View() == Rehung(k, u);
    }

    method MoveToReady(u: Id)
      requires Rehangs(View(), u)
      modifies this`lists, this`at, this`top, this`event, this`pending
      ensures View() == old(Rehung(View(), u))
    {
      RemoveEvent(u);
      var _ := RemoveState(u);
      AddTaskToReadyList(u);
    }

    /** pxDelayedTaskList. */
    function DelayedTaskList(): ListId reads this`swapped { if swapped then DelayedTwo else DelayedOne }

    /** prvResetNextTaskUnblockTime. */
    method ResetNextTaskUnblockTime()
      requires Late(View())
      modifies this`nextUnblock
      ensures View() == old(UnblockReset(View()))
    {
      var items := lists[DelayedTaskList()].items;
      assert items == Items(View().b, Current(View()));
      if items == [] {
        nextUnblock := MAX_DELAY;
      } else {
        HeadWakesFirst(View());
        nextUnblock := wake[items[0]].count;
      }
    }

    /** One round of the loop of xTaskIncrementTick: the head of the delayed list is woken if it is
        due; otherwise xNextTaskUnblockTime is set and the loop ends. */
    method ReadyNext(ghost k: Kernel, ghost n: Kernel) returns (more: bool, ghost m: Kernel)
      requires View() == k && Readying(k, n)
      modifies this`lists, this`at, this`top, this`event, this`pending, this`nextUnblock
      ensures View() == m && (!more ==> m == n)
      ensures more ==> Readying(m, n) && Waitlist(m) < Waitlist(k)
    {
      hide Late, Woken;
      HeadIsDelayed(View());
      var items := lists[DelayedTaskList()].items;
      if items == [] {
        nextUnblock := MAX_DELAY;
        more := false;
      } else {
        var itemValue := wake[items[0]].count;
        if tick.count < itemValue {
          nextUnblock := itemValue;
          more := false;
        } else {
          DueReadiedStep(View());
          MakeReady(items[0]);
          more := true;
        }
      }
      m := View();
    }

    /** The loop of xTaskIncrementTick. */
    method ReadyDueTasks(ghost n: Kernel)
      requires Readying(View(), n)
      modifies this`lists, this`at, this`top, this`event, this`pending, this`nextUnblock
      ensures View() == n
    {
      ghost var k := View();
      var more := true;
      while more
        invariant View() == k && (!more ==> k == n)
        invariant more ==> Readying(k, n)
        decreases more, Waitlist(k)
      {
        more, k := ReadyNext(k, n);
      }
    }

    /** taskSWITCH_DELAYED_LISTS; the precondition is its assertion. */
    method SwitchDelayedLists()
      requires DelayedTaskList() in lists && OverflowDelayedTaskList() in lists && lists[DelayedTaskList()].items == []
      requires var o := lists[OverflowDelayedTaskList()].items; o != [] ==> o[0] in wake
      modifies this`swapped, this`nextUnblock
      ensures swapped == !old(swapped)
      ensures var o := old(lists[OverflowDelayedTaskList()].items);
              nextUnblock == if o == [] then MAX_DELAY else wake[o[0]].count
    {
      swapped := !swapped;
      var items := lists[DelayedTaskList()].items;
      if items == [] {
        nextUnblock := MAX_DELAY;
      } else {
        nextUnblock := wake[items[0]].count;
      }
    }

    /** pxOverflowDelayedTaskList. */
    function OverflowDelayedTaskList(): ListId reads this`swapped { if swapped then DelayedOne else DelayedTwo }

    /** The first part of counting a tick: the count moves on, and at the wrap the delayed lists are
        switched. */
    method AdvanceCount(ghost t: nat, ghost n: Kernel)
      requires Advancing(View(), t, n)
      modifies this`tick, this`swapped, this`nextUnblock, this`uncounted
      ensures View() == n
    {
      hide Late;
      ghost var k := View();
      NextCount(tick.time, t);
      AdvancedIs(k, t);
      tick, uncounted := Stamp(Plus(tick.count, 1), t), uncounted - 1;
      if tick.count == 0 {
        SwitchDelayedLists();
      }
    }

    /** xTaskIncrementTick while the scheduler runs; `left` ticks are to be counted, this one included. */
    method CountTick(ghost k: Kernel, ghost t: nat, ghost left: nat, ghost n: Kernel) returns (ghost m: Kernel)
      requires View() == k && left > 0 && Counting(k, t, left, n)
      modifies this`tick, this`swapped, this`nextUnblock, this`uncounted
      modifies this`lists, this`at, this`top, this`event, this`pending
      ensures View() == m && Counting(m, t + 1, left - 1, n)
    {
      hide Late, DueReadied;
      ghost var a := Advanced(k, t);
      CountingStep(k, t, left, n);
      AdvanceCount(t, a);
      if tick.count >= nextUnblock {
        ReadyDueTasks(Ticked(k, t));
      }
      m := View();
    }

    /** xTaskIncrementTick, at clock value `t` if the tick is counted at once. */
    method IncrementTick(ghost t: nat)
      requires Settled() && Inv(View()) && t == View().time + 1
      modifies this
      ensures Settled() && View() == TickCame(old(View()), t)
    {
      hide Inv, TickCame, Ticking;
      TickingIs(View(), t);
      TakeTick(View(), t, TickCame(View(), t));
    }

    method TakeTick(ghost k: Kernel, ghost t: nat, ghost n: Kernel)
      requires Settled() && View() == k && Ticking(k, t, n)
      modifies this
      ensures View() == n && Settled()
    {
      hide Steady;
      ticks, uncounted := ticks + 1, uncounted + 1;
      if suspended == 0 {
        ghost var m := CountTick(Pended(k), t, 1, n);
        assert m == n;
      } else {
        pendedTicks := pendedTicks + 1;
      }
    }

    /** One round of the first loop of xTaskResumeAll. */
    method ReadyPendingHead(ghost k: Kernel, ghost r: Kernel) returns (ghost m: Kernel)
      requires View() == k && Draining(k, r) && pending.items != []
      modifies this`lists, this`at, this`top, this`event, this`pending
      ensures View() == m && Draining(m, r) && |m.pending.items| < |k.pending.items|
    {
      PendingIsWaiting(k, pending.items[0]);
      MakeReady(pending.items[0]);
      m := View();
    }

    /** xTaskResumeAll; ticks pended meanwhile are counted from clock value `t` on. */
    method ResumeAll(ghost t: nat)
      requires Settled() && suspended > 0 && Inv(View()) && t == View().time + 1
      modifies this
      ensures Settled() && View() == ResumedAll(old(View()), t)
    {
      hide Inv, ResumedAll, Resuming;
      InvIsSteady(View());
      ResumingIs(View(), t);
      Resume(View(), t, Drained(View()), ResumedAll(View(), t));
    }

    method Resume(ghost k: Kernel, ghost t: nat, ghost r: Kernel, ghost n: Kernel)
      requires Settled() && suspended > 0 && View() == k && Resuming(k, t, r, n)
      modifies this
      ensures View() == n && Settled()
    {
      hide Late, Steady, Woken, Ticked, Counting, Draining, UnblockReset;
      suspended := suspended - 1;
      if suspended == 0 {
        var woken := ReadyPending(k, r);
        if woken {
          ResetNextTaskUnblockTime();
        }
        depth := 0;
        CountPending(Restarted(r, woken), t, n);
      } else {
        depth := depth - 1;
      }
    }

    /** The first loop of xTaskResumeAll; whether there was anyone pending. */
    method ReadyPending(ghost k: Kernel, ghost r: Kernel) returns (any: bool)
      requires View() == k && Draining(k, r)
      modifies this`lists, this`at, this`top, this`event, this`pending
      ensures View() == r && any == (k.pending.items != [])
    {
      any := pending.items != [];
      ghost var m := k;
      while pending.items != []
        invariant View() == m && Draining(m, r)
        decreases |m.pending.items|
      {
        m := ReadyPendingHead(m, r);
      }
    }

    /** The second loop of xTaskResumeAll. */
    method CountPending(ghost k: Kernel, ghost t: nat, ghost n: Kernel)
      requires View() == k && uncounted == pendedTicks && Counting(k, t, pendedTicks, n)
      modifies this`tick, this`swapped, this`nextUnblock, this`uncounted, this`pendedTicks
      modifies this`lists, this`at, this`top, this`event, this`pending
      ensures View() == n && pendedTicks == 0
    {
      hide Steady, Ticked;
      var pendedCounts := pendedTicks;
      ghost var m, now := k, t;
      while pendedCounts > 0
        invariant View() == m && Counting(m, now, pendedCounts, n)
      {
        m := CountTick(m, now, pendedCounts, n);
        pendedCounts, now := pendedCounts - 1, now + 1;
      }
      pendedTicks := 0;
    }

    /** listINSERT_END of a state list item that is on no list. */
    method AppendState(l: ListId, u: Id)
      requires l in lists && lists[l].index <= |lists[l].items|
      modifies this`lists, this`at
      ensures lists == old(lists)[l := InsertEnd(old(lists)[l], u)] && at == old(at)[u := l]
    {
      lists, at := lists[l := InsertEnd(lists[l], u)], at[u := l];
    }

    /** vListInsert of a state list item that is on no list. */
    method InsertState(l: ListId, u: Id, value: Tick)
      requires l in lists && lists[l].index <= |lists[l].items| && forall v :: v in lists[l].items ==> v in wake
      modifies this`lists, this`at
      ensures lists == old(lists)[l := InsertAt(old(lists)[l], Spot(Times(wake), old(lists)[l].items, value), u)]
      ensures at == old(at)[u := l]
    {
      hide FirstAbove, Low;
      var items := lists[l].items;
      var spot := 0;
      ghost var values := Values(Times(wake), items);
      while spot < |items| && wake[items[spot]].count <= value
        invariant spot <= |items| && forall i :: 0 <= i < spot ==> values[i] <= value
      {
        spot := spot + 1;
      }
      FirstAboveIs(values, value, spot);
      lists, at := lists[l := InsertAt(lists[l], spot, u)], at[u := l];
    }

    /** A ready task is taken off its ready list. */
    method RemoveReady(u: Id, ghost b: Board)
      requires Tables() == b && u in at && u in tcbs && at[u] == Ready(tcbs[u].priority) && Full(lists) && Removable(lists[at[u]], u)
      modifies this`lists, this`at, this`top
      ensures Tables() == Unlink(b, u)
    {
      var left := RemoveState(u);
      if left == 0 {
        top := Reset(top, tcbs[u].priority);
      }
    }

    /** prvAddCurrentTaskToDelayedList; the task is to wake at clock value `d`. */
    method AddCurrentTaskToDelayedList(ticksToWait: Tick, canBlockIndefinitely: bool, ghost k: Kernel, ghost d: nat)
      requires View() == k && Late(k) && current in at && at[current].Ready? && d == tick.time + ticksToWait
      modifies this`lists, this`at, this`top, this`wake, this`nextUnblock
      ensures View() == Blocked(k, d, ticksToWait == MAX_DELAY && canBlockIndefinitely, false)
    {
      hide Late, Blocked, Unlink, Low, Plus, Epoch;
      var u := current;
      CurrentIsReady(k, u);
      RemoveReady(u, k.b);
      if ticksToWait == MAX_DELAY && canBlockIndefinitely {
        SetAsideIs(k, u, d);
        AppendState(TaskLists.Suspended, u);
      } else {
        DelayedIs(k, u, d);
        OverflowExact(tick.time, ticksToWait);
        Delay(u, Plus(tick.count, ticksToWait), View(), d, Blocked(k, d, false, false));
      }
    }

    /** The second half of it: the task, which has left the ready list, joins a delayed list. */
    method Delay(u: Id, timeToWake: Tick, ghost k: Kernel, ghost d: nat, ghost n: Kernel)
      requires View() == k && Delaying(k, u, d, n)
      requires timeToWake == Low(d) && (timeToWake < tick.count <==> Epoch(d) != Epoch(k.time))
      modifies this`lists, this`at, this`wake, this`nextUnblock
      ensures View() == n
    {
      hide Low, Epoch, Spot;
      if timeToWake < tick.count {
        InsertState(OverflowDelayedTaskList(), u, timeToWake);
      } else {
        InsertState(DelayedTaskList(), u, timeToWake);
        if timeToWake < nextUnblock {
          nextUnblock := timeToWake;
        }
      }
      StampLater(wake, u, d);
      wake := wake[u := Stamp(timeToWake, d)];
    }

    /** vTaskSwitchContext with taskSELECT_HIGHEST_PRIORITY_TASK by bitmap. */
    method SwitchContext(ghost k: Kernel)
      requires Settled() && View() == k && Inv(k)
      modifies this`lists, this`current
      ensures View() == Switched(k)
    {
      hide Inv, Late;
      if suspended == 0 {
        SwitchIs(k);
        var topPriority := 31 - LeadingZeros(top);
        var l := Ready(topPriority);
        assert |lists[l].items| > 0;
        current := Selected(lists[l]);
        lists := lists[l := Advance(lists[l])];
      } else {
        SwitchWaits(k);
      }
    }

    /** The generic selection, for comparison: scanning down from a priority that is not below any
        ready task finds the same list as counting the leading zeros of the bitmap. */
    method SelectByScanning(from: Level, ghost k: Kernel) returns (topPriority: Level)
      requires View() == k && Late(k) && Highest(top) <= from
      ensures topPriority == Highest(top)
    {
      hide Late;
      ScanFinds(k);
      topPriority := from;
      while lists[Ready(topPriority)].items == []
        invariant Highest(top) <= topPriority
        decreases topPriority
      {
        assert topPriority > 0;
        topPriority := topPriority - 1;
      }
    }

    /** xTaskRemoveFromEventList, for the task `u` at the head of the event list. */
    method RemoveFromEventList(u: Id, ghost k: Kernel)
      requires Settled() && View() == k && Late(k) && u in at && event[u] == OnObject && Waiting(at[u])
      modifies this`lists, this`at, this`top, this`event, this`pending
      ensures View() == EventWoken(k, u)
    {
      hide Late;
      if suspended == 0 {
        MakeReady(u);
      } else {
        PendingFits(k);
        event := event[u := Nowhere];
        pending := InsertEnd(pending, u);
        event := event[u := OnPending];
        assert event == k.event[u := OnPending];
      }
    }

    /** vTaskSuspend, up to the yield. */
    method SuspendTask(u: Id, ghost k: Kernel)
      requires View() == k && Inv(k) && Live(k, u) && u != IDLE
      modifies this`lists, this`at, this`top, this`event, this`pending
      ensures View() == SuspendedTask(k, u)
    {
      hide Inv, Late, Tidy, SuspendedTask, Unlink;
      SuspendIs(k, u);
      RemoveAny(u, k.b);
      RemoveEvent(u);
      AppendState(TaskLists.Suspended, u);
    }

    /** uxListRemove of a state list item with taskRESET_READY_PRIORITY if it leaves its list empty. */
    method RemoveAny(u: Id, ghost b: Board)
      requires Tables() == b && Tidy(b) && u in at
      modifies this`lists, this`at, this`top
      ensures Tables() == Unlink(b, u)
    {
      TidyFacts(b, u);
      var left := RemoveState(u);
      if left == 0 {
        if lists[Ready(tcbs[u].priority)].items == [] {
          ResetIdle(b, u);
          top := Reset(top, tcbs[u].priority);
        }
      }
    }
  }

  lemma InvIsSteady(k: Kernel)
    requires Inv(k)
    ensures Steady(k)
  {
  }

  lemma SwitchIs(k: Kernel)
    requires Inv(k) && k.suspended == 0
    ensures 0 <= Highest(k.b.top) < MAX_PRIORITIES
    ensures var l := Ready(Highest(k.b.top));
            && l in k.b.lists && k.b.lists[l].index <= |k.b.lists[l].items| && k.b.lists[l].items != []
            && Switched(k) == k.(b := k.b.(lists := k.b.lists[l := Advance(k.b.lists[l])]), current := Selected(k.b.lists[l]))
  {
    SelectsHighest(k.b, IDLE);
  }

  lemma SwitchWaits(k: Kernel)
    requires Inv(k) && k.suspended > 0
    ensures Switched(k) == k
  {
  }

  lemma ScanFinds(k: Kernel)
    requires Late(k)
    ensures Full(k.b.lists) && 0 <= Highest(k.b.top) < MAX_PRIORITIES && k.b.lists[Ready(Highest(k.b.top))].items != []
    ensures forall p: Level :: p > Highest(k.b.top) ==> k.b.lists[Ready(p)].items == []
  {
    SelectsHighest(k.b, IDLE);
    HighestIsTop(k.b.top, k.b.at[IDLE].p);
  }

  lemma PendingFits(k: Kernel)
    requires Late(k)
    ensures k.pending.index <= |k.pending.items|
  {
  }

  lemma TidyFacts(b: Board, u: Id)
    requires Tidy(b) && u in b.at
    ensures u in b.tcbs && Full(b.lists) && b.at[u] in b.lists && Removable(b.lists[b.at[u]], u)
  {
  }

  /** The reset bit of a priority without ready tasks is reset already, unless the last of them has
      just left. */
  lemma ResetIdle(b: Board, u: Id)
    requires Tidy(b) && u in b.at && u in b.tcbs && Full(b.lists) && b.at[u] in b.lists && Removable(b.lists[b.at[u]], u)
    requires var p := b.tcbs[u].priority; Unlink(b, u).lists[Ready(p)].items == []
    ensures Reset(b.top, b.tcbs[u].priority) == Unlink(b, u).top
  {
    UnlinkKeeps(b, u);
    var p := b.tcbs[u].priority;
    if !b.at[u].Ready? {
      assert !b.top[p];
      assert b.top[p := false] == b.top;
    }
  }

  lemma SuspendIs(k: Kernel, u: Id)
    requires Inv(k) && Live(k, u) && u != IDLE
    ensures u in k.event && (k.event[u] == OnPending ==> Removable(k.pending, u)) && Tidy(k.b)
    ensures var b, s := Unlink(k.b, u), TaskLists.Suspended;
            && s in b.lists && b.lists[s].index <= |b.lists[s].items|
            && SuspendedTask(k, u) == k.(
                 b := b.(lists := b.lists[s := InsertEnd(b.lists[s], u)], at := b.at[u := s]),
                 event := k.event[u := Nowhere],
                 pending := if k.event[u] == OnPending then Remove(k.pending, u) else k.pending)
  {
    UnlinkKeeps(k.b, u);
    if k.event[u] == OnPending { PendingIsWaiting(k, u); }
    hide Partition, OwnLists, Bitmap, Total, Queued, Ahead;
  }

  lemma FirstAboveIs(values: seq<nat>, v: nat, at: nat)
    requires at <= |values| && (forall i :: 0 <= i < at ==> values[i] <= v) && (at < |values| ==> values[at] > v)
    ensures FirstAbove(values, v) == at
  {
  }

  lemma StampLater(wake: map<Id, Clock>, u: Id, d: nat)
    ensures Times(wake[u := Stamp(Low(d), d)]) == Times(wake)[u := d]
  {
  }

  lemma CurrentIsReady(k: Kernel, u: Id)
    requires Late(k) && u in k.b.at && k.b.at[u].Ready?
    ensures k.b.at[u] in k.b.lists && Removable(k.b.lists[k.b.at[u]], u)
    ensures u in k.b.tcbs && k.b.at[u].p == k.b.tcbs[u].priority && Full(k.b.lists)
  {
  }

  lemma SetAsideIs(k: Kernel, u: Id, d: nat)
    requires Late(k) && u == k.current && u in k.b.at && k.b.at[u].Ready?
    requires Full(k.b.lists) && k.b.at[u] in k.b.lists && Removable(k.b.lists[k.b.at[u]], u)
    ensures var b := Unlink(k.b, u);
            && TaskLists.Suspended in b.lists && b.lists[TaskLists.Suspended].index <= |b.lists[TaskLists.Suspended].items|
            && Blocked(k, d, true, false) == k.(b := b.(
                 lists := b.lists[TaskLists.Suspended := InsertEnd(b.lists[TaskLists.Suspended], u)],
                 at := b.at[u := TaskLists.Suspended]))
  {
    UnlinkKeeps(k.b, u);
  }

  /** A task that is on no list is to wake at clock value `d`; that will lead to state `n`. */
  ghost predicate Delaying(k: Kernel, u: Id, d: nat, n: Kernel) {
    var b, l := k.b, DelayedList(k, d);
    && l in b.lists && b.lists[l].index <= |b.lists[l].items| && (forall v :: v in b.lists[l].items ==> v in k.due)
    && n == k.(
         b := b.(lists := b.lists[l := InsertAt(b.lists[l], Spot(k.due, b.lists[l].items, Low(d)), u)], at := b.at[u := l]),
         due := k.due[u := d],
         nextUnblock := if l == Current(k) && Low(d) < k.nextUnblock then Low(d) else k.nextUnblock)
  }

  lemma DelayedIs(k: Kernel, u: Id, d: nat)
    requires Late(k) && u == k.current && u in k.b.at && k.b.at[u].Ready?
    requires Full(k.b.lists) && k.b.at[u] in k.b.lists && Removable(k.b.lists[k.b.at[u]], u)
    ensures Delaying(k.(b := Unlink(k.b, u)), u, d, Blocked(k, d, false, false))
  {
    hide Late, Low, Epoch, Spot, Unlink, Enlisted;
    var n := k.(b := Unlink(k.b, u));
    assert Current(n) == Current(k) && Overflow(n) == Overflow(k);
    assert DelayedList(n, d) == DelayedList(k, d);
    EnlistedIs(k, u, DelayedList(k, d), Low(d));
  }

  lemma EnlistedIs(k: Kernel, u: Id, l: ListId, value: Tick)
    requires Late(k) && u in k.b.at && k.b.at[u].Ready? && (l == Current(k) || l == Overflow(k))
    requires Full(k.b.lists) && k.b.at[u] in k.b.lists && Removable(k.b.lists[k.b.at[u]], u)
    ensures var b := Unlink(k.b, u);
            && l in b.lists && b.lists[l].index <= |b.lists[l].items| && (forall v :: v in b.lists[l].items ==> v in k.due)
            && Enlisted(k, u, l, value)
               == b.(lists := b.lists[l := InsertAt(b.lists[l], Spot(k.due, b.lists[l].items, value), u)], at := b.at[u := l])
  {
    hide Spot, Events, Ahead;
    UnlinkKeeps(k.b, u);
    UnlinkItems(k.b, u, l);
    LeftItems(k.b, l, u);
  }

  /** How many tasks are on the current delayed list. */
  function Waitlist(k: Kernel): nat { |Items(k.b, Current(k))| }

  /** In state `k` the loop of xTaskIncrementTick will end in state `n`. */
  ghost predicate Readying(k: Kernel, n: Kernel)
    decreases |Items(k.b, Current(k))|
  {
    && Late(k)
    && if HasDueHead(k) then (DueReadiedStep(k); Readying(Woken(k, DelayedHead(k)), n)) else n == UnblockReset(k)
  }

  lemma {:induction false} ReadyingIs(k: Kernel)
    requires Late(k)
    ensures Readying(k, DueReadied(k))
    decreases |Items(k.b, Current(k))|
  {
    HeadIsDelayed(k);
    if HasDueHead(k) {
      DueReadiedStep(k);
      ReadyingIs(Woken(k, DelayedHead(k)));
    }
  }

  ghost predicate Advancing(k: Kernel, t: nat, n: Kernel) { Steady(k) && k.pended > 0 && t == k.time + 1 && Advanced(k, t) == n }

  /** In state `k` another `left` ticks are to be counted, the next one at `t`; that will lead to
      state `n`. */
  ghost predicate Counting(k: Kernel, t: nat, left: nat, n: Kernel)
    decreases left
  {
    && Steady(k) && k.suspended == 0 && left <= k.pended && t == k.time + 1
    && if left == 0 then k == n else (TickedKeeps(k, t); Counting(Ticked(k, t), t + 1, left - 1, n))
  }

  lemma CountingStep(k: Kernel, t: nat, left: nat, n: Kernel)
    requires left > 0 && Counting(k, t, left, n)
    ensures var m := Advanced(k, t);
            && Advancing(k, t, m) && Late(m)
            && (if Low(t) >= m.nextUnblock then Readying(m, Ticked(k, t)) else m == Ticked(k, t))
            && Counting(Ticked(k, t), t + 1, left - 1, n)
  {
    AdvancedLate(k, t);
    ReadyingIs(Advanced(k, t));
  }

  /** In state `k` a tick comes, at `t` if it is counted at once; that will lead to state `n`. */
  ghost predicate Ticking(k: Kernel, t: nat, n: Kernel) {
    if k.suspended > 0 then n == Pended(k) else Counting(Pended(k), t, 1, n) && n.pended == k.pended
  }

  /** It leads to what the model makes of the tick. */
  lemma TickingIs(k: Kernel, t: nat)
    requires Inv(k) && t == k.time + 1
    ensures Ticking(k, t, TickCame(k, t))
  {
    hide Steady, Ticked;
    var p := Pended(k);
    PendedKeeps(k);
    if k.suspended == 0 {
      TickedKeeps(p, t);
      assert Counting(Ticked(p, t), t + 1, 0, Ticked(p, t));
    }
  }

  /** In state `k` the tasks held pending are being made ready; that will lead to state `r`. */
  ghost predicate Draining(k: Kernel, r: Kernel)
    decreases |k.pending.items|
  {
    && Steady(k)
    && if k.pending.items == [] then k == r else
         PendingIsWaiting(k, k.pending.items[0]);
         WokenKeeps(k, k.pending.items[0]);
         Draining(Woken(k, k.pending.items[0]), r)
  }

  lemma {:induction false} DrainingIs(k: Kernel)
    requires Steady(k)
    ensures Draining(k, Drained(k))
    decreases |k.pending.items|
  {
    if k.pending.items != [] {
      PendingIsWaiting(k, k.pending.items[0]);
      WokenKeeps(k, k.pending.items[0]);
      DrainingIs(Woken(k, k.pending.items[0]));
    }
  }

  /** In state `k` the scheduler is being resumed; that will lead to state `n`, and if this ends the
      suspension, to state `r` once the pending tasks have been made ready. */
  ghost predicate Resuming(k: Kernel, t: nat, r: Kernel, n: Kernel) {
    if k.suspended > 1 then n == k.(suspended := k.suspended - 1)
    else n.pended == 0 && Draining(k, r) && Late(r) && Counting(Restarted(r, k.pending.items != []), t, k.pended, n)
  }

  ghost function Restarted(r: Kernel, woken: bool): Kernel
    requires Late(r)
  {
    (if woken then UnblockReset(r) else r).(suspended := 0)
  }

  /** It leads to what the model makes of it. */
  lemma ResumingIs(k: Kernel, t: nat)
    requires Inv(k) && k.suspended > 0 && t == k.time + 1
    ensures Resuming(k, t, Drained(k), ResumedAll(k, t))
  {
    hide Steady, Late, Draining, Counting, CaughtUp, Drained, DrainedAll, UnblockReset, Restarted, ResumeWakes, PendingWakes;
    if k.suspended == 1 {
      DrainingIs(k);
      DrainedIsLate(k);
      DrainedAllKeeps(k);
      RestartedIs(k);
      CountingIs(DrainedAll(k), t, k.pended);
    }
  }

  lemma DrainedIsLate(k: Kernel)
    requires Steady(k)
    ensures Late(Drained(k))
  {
    DrainedKeeps(k);
    hide Late, Drained;
  }

  lemma RestartedIs(k: Kernel)
    requires Steady(k) && Late(Drained(k))
    ensures DrainedAll(k) == Restarted(Drained(k), k.pending.items != [])
  {
    hide Steady, Late, Drained, UnblockReset;
  }

  lemma {:induction false} CountingIs(k: Kernel, t: nat, left: nat)
    requires Steady(k) && k.suspended == 0 && left <= k.pended && t == k.time + 1
    ensures Counting(k, t, left, CaughtUp(k, t, left))
    decreases left
  {
    hide Steady, Ticked;
    if left > 0 {
      TickedKeeps(k, t);
      CountingIs(Ticked(k, t), t + 1, left - 1);
    }
  }

  lemma NextCount(time: nat, t: nat)
    requires t == time + 1
    ensures Plus(Low(time), 1) == Low(t)
  {
    PlusIsLow(time, 1);
  }

  lemma AdvancedIs(k: Kernel, t: nat)
    requires Steady(k) && k.pended > 0 && t == k.time + 1
    ensures Current(k) in k.b.lists && Overflow(k) in k.b.lists
    ensures k.b.lists[Overflow(k)].items != [] ==> k.b.lists[Overflow(k)].items[0] in k.due
    ensures Low(t) == 0 ==> k.b.lists[Current(k)].items == []
    ensures var o := k.b.lists[Overflow(k)].items;
            Advanced(k, t) == k.(time := t, pended := k.pended - 1,
              swapped := if Low(t) == 0 then !k.swapped else k.swapped,
              nextUnblock := if Low(t) != 0 then k.nextUnblock else if o == [] then MAX_DELAY else Low(k.due[o[0]]))
  {
    hide Events, OwnLists, Bitmap;
    var o := Items(k.b, Overflow(k));
    if o != [] { assert o[0] in o; }
    if Low(t) == 0 { SwapFindsEmpty(k, t); }
  }

  predicate HeadKnown(k: Kernel) {
    Current(k) in k.b.lists && (k.b.lists[Current(k)].items != [] ==> k.b.lists[Current(k)].items[0] in k.due)
  }

  lemma HeadIsDelayed(k: Kernel)
    requires Late(k)
    ensures HeadKnown(k)
  {
    if Items(k.b, Current(k)) != [] { HeadWakesFirst(k); }
  }

  function DelayedHead(k: Kernel): Id
    requires Items(k.b, Current(k)) != []
  {
    Items(k.b, Current(k))[0]
  }

  /** The head of the delayed list is to be woken at this tick count. */
  predicate HasDueHead(k: Kernel) {
    Items(k.b, Current(k)) != [] && DelayedHead(k) in k.due && Low(k.time) >= Low(k.due[DelayedHead(k)])
  }

  predicate Removable(r: Ring<Id>, u: Id) { r.index <= |r.items| && u in r.items }

  predicate Rehangs(k: Kernel, u: Id) {
    && u in k.b.at && u in k.event && u in k.b.tcbs
    && k.b.at[u] in k.b.lists && Removable(k.b.lists[k.b.at[u]], u)
    && (k.event[u] == OnPending ==> Removable(k.pending, u))
    && var r := Ready(k.b.tcbs[u].priority);
       r in k.b.lists && r != k.b.at[u] && k.b.lists[r].index <= |k.b.lists[r].items|
  }

  /** What taking a waiting task off its lists and making it ready comes to, field by field. */
  function Rehung(k: Kernel, u: Id): Kernel
    requires Rehangs(k, u)
  {
    var l, r := k.b.at[u], Ready(k.b.tcbs[u].priority);
    k.(b := k.b.(lists := k.b.lists[l := Remove(k.b.lists[l], u)][r := InsertEnd(k.b.lists[r], u)],
                 at := (k.b.at - {u})[u := r], top := Record(k.b.top, r.p)),
       event := k.event[u := Nowhere],
       pending := if k.event[u] == OnPending then Remove(k.pending, u) else k.pending)
  }

  lemma MadeReadyIs(b: Board, u: Id)
    requires Tidy(b) && u in b.at && !b.at[u].Ready?
    ensures u in b.tcbs && b.at[u] in b.lists && Removable(b.lists[b.at[u]], u)
    ensures var l, r := b.at[u], Ready(b.tcbs[u].priority);
            && r in b.lists && b.lists[r].index <= |b.lists[r].items|
            && MadeReady(b, u) == b.(lists := b.lists[l := Remove(b.lists[l], u)][r := InsertEnd(b.lists[r], u)],
                                     at := (b.at - {u})[u := r], top := Record(b.top, r.p))
  {
    UnlinkKeeps(b, u);
    assert Unlink(b, u) == b.(lists := b.lists[b.at[u] := Remove(b.lists[b.at[u]], u)], at := b.at - {u});
  }

  lemma WokenIs(k: Kernel, u: Id)
    requires Late(k) && u in k.b.at && Waiting(k.b.at[u])
    ensures Rehangs(k, u) && Woken(k, u) == Rehung(k, u)
  {
    MadeReadyIs(k.b, u);
    if k.event[u] == OnPending { PendingIsWaiting(k, u); }
  }

  lemma DueReadiedStep(k: Kernel)
    requires Late(k) && HasDueHead(k)
    ensures var u := DelayedHead(k);
            && u in k.b.at && Waiting(k.b.at[u]) && Late(Woken(k, u))
            && DueReadied(Woken(k, u)) == DueReadied(k)
            && |Items(Woken(k, u).b, Current(k))| < |Items(k.b, Current(k))|
  {
    HeadWakesFirst(k);
    var u := DelayedHead(k);
    WokenLate(k, u);
    RemoveItems(k.b.lists[Current(k)], u);
  }
}
