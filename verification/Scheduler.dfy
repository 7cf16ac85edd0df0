/** The scheduler of freertos/tasks.c against an unbounded clock: blocking with a timeout, ticks
    delivered or pended, wake-ups while the scheduler is suspended, and task selection. */
module Scheduler {
  import opened Priorities
  import opened ReadyBitmap
  import opened Rings
  import opened TaskLists
  import opened Ticks

  const IDLE: Id := 0

  /** Where the event list item of a task is: on no list, in the waiting list of a kernel object,
      or on xPendingReadyList. */
  datatype Place = Nowhere | OnObject | OnPending

  /** `time` is the unbounded clock of which xTickCount is the low half, `due` the clock value a
      delayed task is to wake at, of which its item keeps the low half, and `ticks` the number of
      tick interrupts so far. `swapped` tells which delayed list is the current one. */
  datatype Kernel = Kernel(
    b: Board,
    event: map<Id, Place>,
    pending: Ring<Id>,
    due: map<Id, nat>,
    swapped: bool,
    current: Id,
    time: nat,
    nextUnblock: Tick,
    suspended: nat,
    pended: nat,
    ticks: nat,
    deleted: int)

  /** pxDelayedTaskList and pxOverflowDelayedTaskList. */
  function Current(k: Kernel): ListId { if k.swapped then DelayedTwo else DelayedOne }
  function Overflow(k: Kernel): ListId { if k.swapped then DelayedOne else DelayedTwo }

  function Items(b: Board, l: ListId): seq<Id> {
    if l in b.lists then b.lists[l].items else []
  }

  predicate Waiting(l: ListId) { l == DelayedOne || l == DelayedTwo || l == Suspended }

  // The invariant.

  /** The values of the state list items of a delayed list, in list order. */
  function Values(due: map<Id, nat>, items: seq<Id>): (v: seq<nat>)
    requires forall u :: u in items ==> u in due
    ensures |v| == |items| && forall i :: 0 <= i < |v| ==> v[i] == Low(due[items[i]])
  {
    seq(|items|, i requires 0 <= i < |items| => Low(due[items[i]]))
  }

  ghost predicate Timed(due: map<Id, nat>, items: seq<Id>, epoch: nat) {
    && (forall u :: u in items ==> u in due && Epoch(due[u]) == epoch)
    && Ascending(Values(due, items))
  }

  /** The current delayed list holds the tasks that wake later in this epoch, the other one those
      that wake in the next, each in the order of their wake times. */
  ghost predicate Queued(current: seq<Id>, overflow: seq<Id>, due: map<Id, nat>, time: nat) {
    && Timed(due, current, Epoch(time))
    && Timed(due, overflow, Epoch(time) + 1)
    && (forall u :: u in current ==> due[u] >= time)
  }

  /** Nobody on the current delayed list should have been woken by now, and xNextTaskUnblockTime is
      not above the first wake time. */
  ghost predicate Ahead(current: seq<Id>, due: map<Id, nat>, time: nat, nextUnblock: Tick) {
    forall u :: u in current ==> u in due && due[u] > time && nextUnblock <= Low(due[u])
  }

  /** Only waiting tasks are on event lists, and tasks are held pending only while the scheduler
      is suspended. */
  ghost predicate Events(at: map<Id, ListId>, event: map<Id, Place>, pending: Ring<Id>, suspended: nat) {
    && at.Keys == event.Keys
    && pending.Valid()
    && (forall u :: u in pending.items ==> u in event && event[u] == OnPending)
    && (forall u :: u in event && event[u] == OnPending ==> u in pending.items)
    && (forall u :: u in event && event[u] != Nowhere ==> u in at && Waiting(at[u]))
    && (suspended == 0 ==> pending.items == [])
  }

  /** What holds all through, also while a tick is being counted. */
  ghost predicate Late(k: Kernel) {
    && Tidy(k.b)
    && Queued(Items(k.b, Current(k)), Items(k.b, Overflow(k)), k.due, k.time)
    && Events(k.b.at, k.event, k.pending, k.suspended)
    && k.time + k.pended == k.ticks
    && IDLE in k.b.at && k.b.at[IDLE].Ready?
    && |Items(k.b, Termination)| == k.deleted
  }

  /** What holds whenever no tick is being counted, also while pended ticks are caught up with. */
  ghost predicate Steady(k: Kernel) {
    Late(k) && Ahead(Items(k.b, Current(k)), k.due, k.time, k.nextUnblock)
  }

  /** Between critical sections: ticks are pended only while the scheduler is suspended. */
  ghost predicate Inv(k: Kernel) {
    Steady(k) && (k.suspended == 0 ==> k.pended == 0)
  }

  // Delayed lists.

  lemma TimedDrop(due: map<Id, nat>, items: seq<Id>, epoch: nat, i: nat)
    requires Timed(due, items, epoch) && i < |items|
    ensures Timed(due, DropAt(items, i), epoch)
  {
    var n := DropAt(items, i);
    assert forall u :: u in n ==> u in items;
    forall x, y | 0 <= x < y < |n| ensures Values(due, n)[x] <= Values(due, n)[y] {
      assert Values(due, items)[if x < i then x else x + 1] <= Values(due, items)[if y < i then y else y + 1];
    }
  }

  /** Where vListInsert puts an item with value `v`: after all that are not above it. */
  function Spot(due: map<Id, nat>, items: seq<Id>, v: nat): (i: nat)
    requires forall u :: u in items ==> u in due
    ensures i <= |items|
  {
    FirstAbove(Values(due, items), v)
  }

  lemma ValuesPut(due: map<Id, nat>, items: seq<Id>, u: Id, d: nat, i: nat)
    requires (forall v :: v in items ==> v in due) && u !in items && i <= |items|
    ensures forall v :: v in PutAt(items, i, u) ==> v == u || v in items
    ensures Values(due[u := d], PutAt(items, i, u)) == PutAt(Values(due, items), i, Low(d))
  {
    var n, w := PutAt(items, i, u), PutAt(Values(due, items), i, Low(d));
    forall x | 0 <= x < |n| ensures Values(due[u := d], n)[x] == w[x] {
      assert n[x] == if x < i then items[x] else if x == i then u else items[x - 1];
    }
  }

  lemma TimedPut(due: map<Id, nat>, items: seq<Id>, epoch: nat, u: Id, d: nat)
    requires Timed(due, items, epoch) && Epoch(d) == epoch && u !in items
    ensures Timed(due[u := d], PutAt(items, Spot(due, items, Low(d)), u), epoch)
  {
    var i := Spot(due, items, Low(d));
    ValuesPut(due, items, u, d, i);
    SortedInsertion(Values(due, items), Low(d));
  }

  lemma TimedFrame(due: map<Id, nat>, items: seq<Id>, epoch: nat, u: Id, d: nat)
    requires Timed(due, items, epoch) && u !in items
    ensures Timed(due[u := d], items, epoch)
  {
    assert Values(due[u := d], items) == Values(due, items);
  }

  /** A list without its items' dependence on who was removed: what is left of list `l` when `u`
      goes elsewhere. */
  function Left(b: Board, l: ListId, u: Id): seq<Id> {
    if u in Items(b, l) then DropAt(Items(b, l), IndexOf(Items(b, l), u)) else Items(b, l)
  }

  lemma LeftItems(b: Board, l: ListId, u: Id)
    requires Tidy(b) && l in b.lists
    ensures forall v :: v in Left(b, l, u) <==> v in Items(b, l) && v != u
    ensures |Left(b, l, u)| <= |Items(b, l)|
  {
    if u in Items(b, l) { RemoveItems(b.lists[l], u); }
  }

  lemma UnlinkItems(b: Board, u: Id, l: ListId)
    requires Tidy(b) && u in b.at && l in b.lists
    ensures l in Unlink(b, u).lists && Items(Unlink(b, u), l) == Left(b, l, u)
  {
  }

  lemma MadeReadyItems(b: Board, u: Id, l: ListId)
    requires Tidy(b) && u in b.at && l in b.lists && !l.Ready?
    ensures Items(MadeReady(b, u), l) == Left(b, l, u)
  {
    UnlinkItems(b, u, l);
    UnlinkKeeps(b, u);
  }

  lemma SetAsideItems(b: Board, u: Id, to: ListId, l: ListId)
    requires Tidy(b) && u in b.at && l in b.lists && to in b.lists && l != to
    ensures Items(SetAside(b, u, to), l) == Left(b, l, u)
  {
    UnlinkItems(b, u, l);
    UnlinkKeeps(b, u);
  }

  lemma QueuedLeave(k: Kernel, u: Id)
    requires Late(k)
    ensures Queued(Left(k.b, Current(k), u), Left(k.b, Overflow(k), u), k.due, k.time)
    ensures Ahead(Items(k.b, Current(k)), k.due, k.time, k.nextUnblock) ==> Ahead(Left(k.b, Current(k), u), k.due, k.time, k.nextUnblock)
  {
    var c, o := Items(k.b, Current(k)), Items(k.b, Overflow(k));
    LeftItems(k.b, Current(k), u);
    LeftItems(k.b, Overflow(k), u);
    if u in c { TimedDrop(k.due, c, Epoch(k.time), IndexOf(c, u)); }
    if u in o { TimedDrop(k.due, o, Epoch(k.time) + 1, IndexOf(o, u)); }
  }

  // Event list items.

  lemma EventsMove(k: Kernel, u: Id, l: ListId, p: Place)
    requires Events(k.b.at, k.event, k.pending, k.suspended) && u in k.b.at
    requires k.event[u] != OnPending && p != OnPending && (p == OnObject ==> Waiting(l))
    ensures Events(k.b.at[u := l], k.event[u := p], k.pending, k.suspended)
  {
  }

  lemma EventsPend(k: Kernel, u: Id)
    requires Events(k.b.at, k.event, k.pending, k.suspended) && u in k.b.at
    requires k.event[u] != OnPending && Waiting(k.b.at[u]) && k.suspended > 0
    ensures Events(k.b.at, k.event[u := OnPending], InsertEnd(k.pending, u), k.suspended)
  {
    InsertItems(k.pending, End(k.pending), u);
  }

  lemma EventsUnpend(k: Kernel, u: Id, l: ListId)
    requires Events(k.b.at, k.event, k.pending, k.suspended) && u in k.b.at && k.event[u] == OnPending
    ensures Events(k.b.at[u := l], k.event[u := Nowhere], Remove(k.pending, u), k.suspended)
  {
    RemoveItems(k.pending, u);
  }

  /** uxListRemove of an event list item, if it is on a list. */
  function Unhooked(k: Kernel, u: Id): Kernel
    requires Events(k.b.at, k.event, k.pending, k.suspended) && u in k.b.at
  {
    k.(event := k.event[u := Nowhere], pending := if k.event[u] == OnPending then Remove(k.pending, u) else k.pending)
  }

  lemma UnhookedKeeps(k: Kernel, u: Id, l: ListId)
    requires Events(k.b.at, k.event, k.pending, k.suspended) && u in k.b.at
    ensures var n := Unhooked(k, u); Events(k.b.at[u := l], n.event, n.pending, k.suspended)
    ensures var n := Unhooked(k, u); Events(k.b.at - {u}, n.event - {u}, n.pending, k.suspended)
  {
    if k.event[u] == OnPending { EventsUnpend(k, u, l); } else { EventsMove(k, u, l, Nowhere); }
  }

  // Waking.

  /** Off the event list and the list of waiting tasks, and into a ready list. */
  ghost function Woken(k: Kernel, u: Id): Kernel
    requires Late(k) && u in k.b.at
  {
    Unhooked(k, u).(b := MadeReady(k.b, u))
  }

  lemma WokenFacts(k: Kernel, u: Id)
    requires Late(k) && u in k.b.at && Waiting(k.b.at[u])
    ensures var n := MadeReady(k.b, u);
            && Tidy(n) && n.at == k.b.at[u := Ready(k.b.tcbs[u].priority)] && n.tcbs == k.b.tcbs
            && Items(n, Current(k)) == Left(k.b, Current(k), u)
            && Items(n, Overflow(k)) == Left(k.b, Overflow(k), u)
            && Items(n, Termination) == Items(k.b, Termination)
  {
    hide Queued, Events, Unlink, MadeReady, Left;
    MadeReadyKeeps(k.b, u);
    MadeReadyItems(k.b, u, Current(k));
    MadeReadyItems(k.b, u, Overflow(k));
    MadeReadyItems(k.b, u, Termination);
    NotOn(k.b, u, Termination);
  }

  lemma WokenLate(k: Kernel, u: Id)
    requires Late(k) && u in k.b.at && Waiting(k.b.at[u])
    ensures Late(Woken(k, u))
    ensures Items(Woken(k, u).b, Current(k)) == Left(k.b, Current(k), u)
    ensures Items(Woken(k, u).b, Overflow(k)) == Left(k.b, Overflow(k), u)
    ensures Woken(k, u).b.at == k.b.at[u := Ready(k.b.tcbs[u].priority)] && Woken(k, u).b.tcbs == k.b.tcbs
  {
    WokenFacts(k, u);
    QueuedLeave(k, u);
    UnhookedKeeps(k, u, Ready(k.b.tcbs[u].priority));
  }

  lemma WokenKeeps(k: Kernel, u: Id)
    requires Steady(k) && u in k.b.at && Waiting(k.b.at[u])
    ensures Steady(Woken(k, u))
  {
    WokenLate(k, u);
    QueuedLeave(k, u);
  }

  /** A task that is not on a list is not missed there. */
  lemma NotOn(b: Board, u: Id, l: ListId)
    requires Tidy(b) && u in b.at && l in b.lists && b.at[u] != l
    ensures u !in Items(b, l) && Left(b, l, u) == Items(b, l)
  {
  }

  /** xTaskRemoveFromEventList, for the task at the head of the event list. */
  ghost function EventWoken(k: Kernel, u: Id): Kernel
    requires Late(k) && u in k.b.at && k.event[u] != OnPending
  {
    if k.suspended == 0 then Woken(k, u)
    else k.(event := k.event[u := OnPending], pending := InsertEnd(k.pending, u))
  }

  lemma EventWokenKeeps(k: Kernel, u: Id)
    requires Inv(k) && u in k.b.at && k.event[u] != OnPending && Waiting(k.b.at[u])
    ensures Inv(EventWoken(k, u))
  {
    if k.suspended == 0 { WokenKeeps(k, u); } else { EventsPend(k, u); }
  }

  // Blocking.

  /** prvAddCurrentTaskToDelayedList, to wake at clock value `d` if not `forever`, after the event
      list item is put on the list of an object if the task waits for one. */
  ghost function Blocked(k: Kernel, d: nat, forever: bool, onEvent: bool): Kernel
    requires Late(k) && k.current in k.b.at
  {
    var u := k.current;
    var event := if onEvent then k.event[u := OnObject] else k.event;
    if forever then k.(b := SetAside(k.b, u, TaskLists.Suspended), event := event)
    else Delayed(k, u, d, event)
  }

  /** The list for a wake time. */
  function DelayedList(k: Kernel, d: nat): ListId { if Epoch(d) == Epoch(k.time) then Current(k) else Overflow(k) }

  /** vListInsert into the delayed list for the wake time; xNextTaskUnblockTime is kept at or below
      the first one of the current list. */
  ghost function Delayed(k: Kernel, u: Id, d: nat, event: map<Id, Place>): Kernel
    requires Late(k) && u in k.b.at
  {
    var l := DelayedList(k, d);
    k.(b := Enlisted(k, u, l, Low(d)), event := event, due := k.due[u := d],
       nextUnblock := if l == Current(k) && Low(d) < k.nextUnblock then Low(d) else k.nextUnblock)
  }

  ghost function Enlisted(k: Kernel, u: Id, l: ListId, value: Tick): Board
    requires Late(k) && u in k.b.at && (l == Current(k) || l == Overflow(k))
  {
    UnlinkKeeps(k.b, u);
    LeftItems(k.b, l, u);
    UnlinkItems(k.b, u, l);
    Moved(k.b, u, l, Spot(k.due, Items(Unlink(k.b, u), l), value))
  }

  lemma MovedItems(b: Board, u: Id, l: ListId, i: nat, other: ListId)
    requires Tidy(b) && u in b.at && l in b.lists && i <= |Unlink(b, u).lists[l].items|
    requires other in b.lists
    ensures var n := Unlink(b, u); l in n.lists && n.lists[l].index <= |n.lists[l].items|
    ensures Items(Moved(b, u, l, i), other) == if other == l then PutAt(Left(b, l, u), i, u) else Left(b, other, u)
  {
    UnlinkKeeps(b, u);
    UnlinkItems(b, u, l);
    UnlinkItems(b, u, other);
  }

  lemma EventsBlock(k: Kernel, u: Id, l: ListId, onEvent: bool)
    requires Events(k.b.at, k.event, k.pending, k.suspended) && u in k.b.at && k.b.at[u].Ready? && Waiting(l)
    ensures Events(k.b.at[u := l], if onEvent then k.event[u := OnObject] else k.event, k.pending, k.suspended)
  {
    EventsMove(k, u, l, if onEvent then OnObject else Nowhere);
    assert k.event[u := Nowhere] == k.event;
  }

  lemma SetAsideFacts(k: Kernel, u: Id)
    requires Late(k) && u in k.b.at && k.b.at[u].Ready?
    ensures var n := SetAside(k.b, u, TaskLists.Suspended);
            && Tidy(n) && n.at == k.b.at[u := TaskLists.Suspended]
            && Items(n, Current(k)) == Items(k.b, Current(k)) && Items(n, Overflow(k)) == Items(k.b, Overflow(k))
            && Items(n, Termination) == Items(k.b, Termination)
  {
    SetAsideKeeps(k.b, u, TaskLists.Suspended);
    SetAsideItems(k.b, u, TaskLists.Suspended, Current(k));
    SetAsideItems(k.b, u, TaskLists.Suspended, Overflow(k));
    SetAsideItems(k.b, u, TaskLists.Suspended, Termination);
    NotOn(k.b, u, Current(k));
    NotOn(k.b, u, Overflow(k));
    NotOn(k.b, u, Termination);
  }

  lemma BlockedKeeps(k: Kernel, d: nat, forever: bool, onEvent: bool)
    requires Inv(k) && k.current in k.b.at && k.b.at[k.current].Ready? && k.current != IDLE
    requires forever || k.time < d < k.time + WRAP
    ensures Inv(Blocked(k, d, forever, onEvent))
  {
    hide Tidy, Queued, Events, Ahead, SetAside, Delayed, Low, Epoch;
    if forever {
      SetAsideFacts(k, k.current);
      EventsBlock(k, k.current, TaskLists.Suspended, onEvent);
    } else {
      WakeEpoch(k.time, d);
      DelayedKeeps(k, k.current, d, onEvent);
    }
  }

  lemma WakeEpoch(time: nat, d: nat)
    requires time < d < time + WRAP
    ensures Epoch(time) <= Epoch(d) <= Epoch(time) + 1
  {
  }

  lemma DelayFacts(k: Kernel, u: Id, l: ListId, value: Tick)
    requires Late(k) && u in k.b.at && k.b.at[u].Ready? && (l == Current(k) || l == Overflow(k))
    ensures u !in Items(k.b, Current(k)) && u !in Items(k.b, Overflow(k))
    ensures var n := Enlisted(k, u, l, value);
            var joined := PutAt(Items(k.b, l), Spot(k.due, Items(k.b, l), value), u);
            && Tidy(n) && n.at == k.b.at[u := l]
            && Items(n, Current(k)) == (if Current(k) == l then joined else Items(k.b, Current(k)))
            && Items(n, Overflow(k)) == (if Overflow(k) == l then joined else Items(k.b, Overflow(k)))
            && Items(n, Termination) == Items(k.b, Termination)
  {
    NotOn(k.b, u, Current(k));
    NotOn(k.b, u, Overflow(k));
    NotOn(k.b, u, Termination);
    UnlinkKeeps(k.b, u);
    UnlinkItems(k.b, u, l);
    var i := Spot(k.due, Items(k.b, l), value);
    MovedKeeps(k.b, u, l, i);
    MovedItems(k.b, u, l, i, Current(k));
    MovedItems(k.b, u, l, i, Overflow(k));
    MovedItems(k.b, u, l, i, Termination);
  }

  lemma DelayedKeeps(k: Kernel, u: Id, d: nat, onEvent: bool)
    requires Inv(k) && u in k.b.at && k.b.at[u].Ready? && u != IDLE
    requires d > k.time && Epoch(k.time) <= Epoch(d) <= Epoch(k.time) + 1
    ensures Inv(Delayed(k, u, d, if onEvent then k.event[u := OnObject] else k.event))
  {
    hide Tidy, Queued, Events, Ahead, Enlisted, Low;
    var l := DelayedList(k, d);
    DelayFacts(k, u, l, Low(d));
    EventsBlock(k, u, l, onEvent);
    if l == Current(k) {
      JoinCurrent(Items(k.b, Current(k)), Items(k.b, Overflow(k)), k.due, k.time, k.nextUnblock, u, d);
    } else {
      JoinOverflow(Items(k.b, Current(k)), Items(k.b, Overflow(k)), k.due, k.time, k.nextUnblock, u, d);
    }
  }

  lemma JoinOverflow(c: seq<Id>, o: seq<Id>, due: map<Id, nat>, time: nat, nextUnblock: Tick, u: Id, d: nat)
    requires Queued(c, o, due, time) && Ahead(c, due, time, nextUnblock) && u !in c && u !in o && Epoch(d) == Epoch(time) + 1
    ensures var due' := due[u := d];
            Queued(c, PutAt(o, Spot(due, o, Low(d)), u), due', time) && Ahead(c, due', time, nextUnblock)
  {
    TimedPut(due, o, Epoch(time) + 1, u, d);
    TimedFrame(due, c, Epoch(time), u, d);
  }

  lemma JoinCurrent(c: seq<Id>, o: seq<Id>, due: map<Id, nat>, time: nat, nextUnblock: Tick, u: Id, d: nat)
    requires Queued(c, o, due, time) && Ahead(c, due, time, nextUnblock) && u !in c && u !in o
    requires Epoch(d) == Epoch(time) && d > time
    ensures var due', c' := due[u := d], PutAt(c, Spot(due, c, Low(d)), u);
            Queued(c', o, due', time) && Ahead(c', due', time, if Low(d) < nextUnblock then Low(d) else nextUnblock)
  {
    TimedPut(due, c, Epoch(time), u, d);
    TimedFrame(due, o, Epoch(time) + 1, u, d);
    ValuesPut(due, c, u, d, Spot(due, c, Low(d)));
    forall v | v in PutAt(c, Spot(due, c, Low(d)), u)
      ensures due[u := d][v] > time && (if Low(d) < nextUnblock then Low(d) else nextUnblock) <= Low(due[u := d][v])
    {
      if v != u { assert v in c; }
    }
  }

  /** The test by which prvAddCurrentTaskToDelayedList chooses the list: the sum is below the
      tick count exactly when the wake time is in the next epoch. */
  lemma OverflowExact(time: nat, wait: Tick)
    ensures Plus(Low(time), wait) == Low(time + wait)
    ensures Epoch(time + wait) == if Plus(Low(time), wait) < Low(time) then Epoch(time) + 1 else Epoch(time)
  {
    PlusIsLow(time, wait);
  }
}
