/** Counting ticks: waking the tasks that are due, switching the delayed lists when the count
    wraps, and catching up with the ticks that came while the scheduler was suspended. */
module TickCounting {
  import opened Rings
  import opened Scheduler
  import opened TaskLists
  import opened Ticks

  lemma TimedHead(due: map<Id, nat>, items: seq<Id>, epoch: nat, u: Id)
    requires Timed(due, items, epoch) && u in items
    ensures Low(due[items[0]]) <= Low(due[u]) && due[items[0]] <= due[u]
  {
    assert Values(due, items)[0] <= Values(due, items)[IndexOf(items, u)];
    SameEpoch(due[items[0]], due[u]);
  }

  lemma OnList(b: Board, l: ListId, u: Id)
    requires Tidy(b) && u in Items(b, l)
    ensures u in b.at && b.at[u] == l
  {
  }

  /** The head of the current delayed list wakes before the others. */
  lemma HeadWakesFirst(k: Kernel)
    requires Late(k) && Items(k.b, Current(k)) != []
    ensures var c := Items(k.b, Current(k));
            && c[0] in k.b.at && k.b.at[c[0]] == Current(k) && c[0] in k.due
            && (Low(k.time) < Low(k.due[c[0]]) <==> k.time < k.due[c[0]])
            && forall u :: u in c ==> u in k.due && Low(k.due[c[0]]) <= Low(k.due[u]) && k.due[c[0]] <= k.due[u]
  {
    var c := Items(k.b, Current(k));
    OnList(k.b, Current(k), c[0]);
    SameEpoch(k.time, k.due[c[0]]);
    forall u | u in c ensures u in k.due && Low(k.due[c[0]]) <= Low(k.due[u]) && k.due[c[0]] <= k.due[u] {
      TimedHead(k.due, c, Epoch(k.time), u);
    }
  }

  lemma SameEpoch(a: nat, b: nat)
    requires Epoch(a) == Epoch(b)
    ensures Low(a) < Low(b) <==> a < b
    ensures Low(a) <= Low(b) <==> a <= b
  {
    Split(a);
    Split(b);
  }

  /** prvResetNextTaskUnblockTime. */
  ghost function UnblockReset(k: Kernel): Kernel
    requires Late(k)
  {
    var c := Items(k.b, Current(k));
    k.(nextUnblock := if c == [] then MAX_DELAY else Low(k.due[c[0]]))
  }

  lemma UnblockResetKeeps(k: Kernel)
    requires Late(k) && Items(k.b, Current(k)) != [] ==> k.due[Items(k.b, Current(k))[0]] > k.time
    requires Late(k)
    ensures Steady(UnblockReset(k))
  {
    if Items(k.b, Current(k)) != [] { HeadWakesFirst(k); }
  }

  /** The loop of xTaskIncrementTick: tasks at the head of the delayed list are made ready as long
      as they are due; xNextTaskUnblockTime is set for the first that is not. */
  ghost function DueReadied(k: Kernel): Kernel
    requires Late(k)
    decreases |Items(k.b, Current(k))|
  {
    var c := Items(k.b, Current(k));
    if c == [] || Low(k.time) < Low(k.due[c[0]]) then UnblockReset(k)
    else
      HeadWakesFirst(k);
      WokenLate(k, c[0]);
      RemoveItems(k.b.lists[Current(k)], c[0]);
      DueReadied(Woken(k, c[0]))
  }

  /** A task on the current delayed list whose time has come. */
  predicate Expired(k: Kernel, v: Id) {
    v in k.due && v in Items(k.b, Current(k)) && k.due[v] <= k.time
  }

  lemma WokenExpired(k: Kernel, u: Id, v: Id)
    requires Late(k) && u in k.b.at && k.b.at[u] == Current(k) && k.suspended == 0
    ensures Late(Woken(k, u)) && (Expired(Woken(k, u), v) <==> Expired(k, v) && v != u)
    ensures |Items(Woken(k, u).b, Current(k))| < |Items(k.b, Current(k))|
  {
    WokenLate(k, u);
    LeftItems(k.b, Current(k), u);
    RemoveItems(k.b.lists[Current(k)], u);
  }

  /** What a tick does not touch. */
  predicate SameClock(k: Kernel, n: Kernel) {
    n.time == k.time && n.suspended == k.suspended && n.pended == k.pended && n.ticks == k.ticks
    && n.swapped == k.swapped && n.due == k.due && n.current == k.current
  }

  /** A tick wakes exactly the tasks of the current list that are due, each into the ready list of
      its priority. */
  lemma {:induction false} DueReadiedExact(k: Kernel, v: Id)
    requires Late(k) && k.suspended == 0 && v in k.b.at
    ensures var n := DueReadied(k);
            && v in n.b.at && n.b.tcbs == k.b.tcbs
            && n.b.at[v] == if Expired(k, v) then Ready(k.b.tcbs[v].priority) else k.b.at[v]
    decreases |Items(k.b, Current(k))|
  {
    var c := Items(k.b, Current(k));
    if c == [] || Low(k.time) < Low(k.due[c[0]]) {
      if c != [] { HeadWakesFirst(k); }
    } else {
      HeadWakesFirst(k);
      WokenLate(k, c[0]);
      WokenExpired(k, c[0], v);
      DueReadiedExact(Woken(k, c[0]), v);
    }
  }

  lemma {:induction false} DueReadiedKeeps(k: Kernel)
    requires Late(k) && k.suspended == 0
    ensures Steady(DueReadied(k)) && SameClock(k, DueReadied(k)) && DueReadied(k).b.at.Keys == k.b.at.Keys
    decreases |Items(k.b, Current(k))|
  {
    var c := Items(k.b, Current(k));
    if c == [] || Low(k.time) < Low(k.due[c[0]]) {
      if c != [] { HeadWakesFirst(k); }
      UnblockResetKeeps(k);
    } else {
      HeadWakesFirst(k);
      WokenLate(k, c[0]);
      WokenExpired(k, c[0], c[0]);
      DueReadiedKeeps(Woken(k, c[0]));
    }
  }

  // One tick.

  lemma NextTick(time: nat, t: nat)
    requires t == time + 1
    ensures Epoch(t) == if Low(t) == 0 then Epoch(time) + 1 else Epoch(time)
    ensures forall d: nat :: Epoch(d) == Epoch(time) && d > time ==> d >= t && Low(t) != 0
    ensures forall d: nat :: Epoch(d) == Epoch(t) && Low(t) == 0 ==> d >= t
  {
    Split(time);
    Split(t);
    forall d: nat | Epoch(d) == Epoch(time) && d > time ensures d >= t && Low(t) != 0 { Split(d); }
    forall d: nat | Epoch(d) == Epoch(t) && Low(t) == 0 ensures d >= t { Split(d); }
  }

  /** The assertion of taskSWITCH_DELAYED_LISTS cannot fail: when the tick count wraps, nobody is
      left on the current delayed list. */
  lemma SwapFindsEmpty(k: Kernel, t: nat)
    requires Steady(k) && t == k.time + 1 && Low(t) == 0
    ensures Items(k.b, Current(k)) == []
  {
    var c := Items(k.b, Current(k));
    if c != [] {
      assert c[0] in c;
      LaterInEpoch(k.time, t, k.due[c[0]]);
    }
  }

  lemma LaterInEpoch(time: nat, t: nat, d: nat)
    requires Epoch(d) == Epoch(time) && time < d && t == time + 1
    ensures Low(t) != 0
  {
    Split(time);
    Split(t);
    Split(d);
  }

  /** The clock moves on by one pended tick; when the count wraps the delayed lists are switched. */
  ghost function Advanced(k: Kernel, t: nat): Kernel
    requires Late(k) && k.pended > 0
  {
    var n := k.(time := t, pended := k.pended - 1);
    var o := Items(k.b, Overflow(k));
    if Low(t) == 0 then n.(swapped := !k.swapped, nextUnblock := if o == [] then MAX_DELAY else Low(k.due[o[0]])) else n
  }

  lemma AdvancedLate(k: Kernel, t: nat)
    requires Steady(k) && k.pended > 0 && t == k.time + 1
    ensures Late(Advanced(k, t))
    ensures Low(t) < Advanced(k, t).nextUnblock ==> Steady(Advanced(k, t))
  {
    var n := Advanced(k, t);
    var c, o := Items(k.b, Current(k)), Items(k.b, Overflow(k));
    NextTick(k.time, t);
    if Low(t) == 0 { SwapFindsEmpty(k, t); }
    QueuedAdvance(c, o, k.due, k.time, t);
    if Low(t) < n.nextUnblock {
      forall u | u in Items(n.b, Current(n)) ensures u in n.due && n.due[u] > t && n.nextUnblock <= Low(n.due[u]) {
        SameEpoch(t, n.due[u]);
        if Low(t) == 0 { TimedHead(k.due, o, Epoch(t), u); }
      }
    }
  }

  lemma QueuedAdvance(c: seq<Id>, o: seq<Id>, due: map<Id, nat>, time: nat, t: nat)
    requires Queued(c, o, due, time) && t == time + 1 && (forall u :: u in c ==> due[u] > time) && (Low(t) == 0 ==> c == [])
    ensures if Low(t) == 0 then Queued(o, c, due, t) else Queued(c, o, due, t)
  {
    NextTick(time, t);
  }

  /** The counting part of xTaskIncrementTick: the clock shows `t` now. */
  ghost function Ticked(k: Kernel, t: nat): Kernel
    requires Steady(k) && k.pended > 0 && t == k.time + 1
  {
    AdvancedLate(k, t);
    var n := Advanced(k, t);
    if Low(t) >= n.nextUnblock then DueReadied(n) else n
  }

  /** A delayed task. */
  predicate IsDelayed(k: Kernel, v: Id) {
    v in k.b.at && (k.b.at[v] == DelayedOne || k.b.at[v] == DelayedTwo) && v in k.due
  }

  lemma TickedKeeps(k: Kernel, t: nat)
    requires Steady(k) && k.pended > 0 && k.suspended == 0 && t == k.time + 1
    ensures var n := Ticked(k, t);
            && Steady(n) && n.suspended == 0 && n.time == t && n.pended == k.pended - 1 && n.ticks == k.ticks
            && n.due == k.due && n.current == k.current && n.b.at.Keys == k.b.at.Keys
  {
    var n := Advanced(k, t);
    AdvancedLate(k, t);
    if Low(t) >= n.nextUnblock {
      DueReadiedKeeps(n);
      assert Ticked(k, t) == DueReadied(n);
    } else {
      assert Ticked(k, t) == n;
    }
  }

  /** When the clock reaches T + 1 exactly the tasks due at T + 1 are woken, from whichever delayed
      list, and no other task is moved. */
  lemma TickedExact(k: Kernel, t: nat, v: Id)
    requires Steady(k) && k.pended > 0 && k.suspended == 0 && v in k.b.at && t == k.time + 1
    ensures var n := Ticked(k, t);
            && v in n.b.at && n.b.tcbs == k.b.tcbs
            && n.b.at[v] == if IsDelayed(k, v) && k.due[v] == t then Ready(k.b.tcbs[v].priority) else k.b.at[v]
  {
    var n := Advanced(k, t);
    AdvancedLate(k, t);
    ExpiredExact(k, t, v);
    if Low(t) >= n.nextUnblock {
      DueReadiedExact(n, v);
      assert Ticked(k, t) == DueReadied(n);
    } else {
      assert Ticked(k, t) == n;
    }
  }

  lemma ExpiredExact(k: Kernel, t: nat, v: Id)
    requires Steady(k) && k.pended > 0 && v in k.b.at && t == k.time + 1
    ensures var n := Advanced(k, t);
            && (Expired(n, v) <==> IsDelayed(k, v) && k.due[v] == t)
            && (Low(t) < n.nextUnblock ==> !Expired(n, v))
  {
    AdvancedLate(k, t);
    NextTick(k.time, t);
    ListedIs(k, v);
    if Low(t) == 0 { SwapFindsEmpty(k, t); }
  }

  lemma ListedIs(k: Kernel, v: Id)
    requires Late(k) && v in k.b.at
    ensures k.b.at[v] == Current(k) <==> v in Items(k.b, Current(k))
    ensures k.b.at[v] == Overflow(k) <==> v in Items(k.b, Overflow(k))
    ensures k.b.at[v] == Current(k) || k.b.at[v] == Overflow(k) ==> v in k.due
  {
  }

  lemma DelayedIsLater(k: Kernel, v: Id)
    requires Steady(k) && IsDelayed(k, v)
    ensures k.due[v] > k.time
  {
    ListedIs(k, v);
    Split(k.due[v]);
    Split(k.time);
  }

  // Resuming the scheduler.

  /** The first loop of xTaskResumeAll: everyone held pending is made ready. */
  ghost function Drained(k: Kernel): Kernel
    requires Steady(k)
    decreases |k.pending.items|
  {
    if k.pending.items == [] then k else
      var u := k.pending.items[0];
      PendingIsWaiting(k, u);
      WokenKeeps(k, u);
      Drained(Woken(k, u))
  }

  lemma PendingIsWaiting(k: Kernel, u: Id)
    requires Late(k) && u in k.pending.items
    ensures u in k.b.at && u in k.event && k.event[u] == OnPending && Waiting(k.b.at[u])
    ensures Remove(k.pending, u).Valid() && |Remove(k.pending, u).items| < |k.pending.items|
  {
    RemoveItems(k.pending, u);
  }

  lemma {:induction false} DrainedKeeps(k: Kernel)
    requires Steady(k)
    ensures var n := Drained(k);
            Steady(n) && SameClock(k, n) && n.pending.items == [] && n.b.at.Keys == k.b.at.Keys && n.b.tcbs == k.b.tcbs
    decreases |k.pending.items|
  {
    if k.pending.items != [] {
      var u := k.pending.items[0];
      PendingIsWaiting(k, u);
      WokenKeeps(k, u);
      WokenLate(k, u);
      DrainedKeeps(Woken(k, u));
    }
  }

  /** Exactly the tasks held pending are made ready. */
  lemma {:induction false} DrainedExact(k: Kernel, v: Id)
    requires Steady(k) && v in k.b.at
    ensures var n := Drained(k);
            v in n.b.at && v in k.event
            && n.b.at[v] == if k.event[v] == OnPending then Ready(k.b.tcbs[v].priority) else k.b.at[v]
    decreases |k.pending.items|
  {
    if k.pending.items != [] {
      var u := k.pending.items[0];
      PendingIsWaiting(k, u);
      WokenKeeps(k, u);
      WokenLate(k, u);
      DrainedExact(Woken(k, u), v);
    }
  }

  /** What `n` ticks make of the tasks: exactly those due by then are ready. */
  ghost predicate WakesDue(k: Kernel, c: Kernel, n: nat) {
    && c.b.at.Keys == k.b.at.Keys && c.b.tcbs == k.b.tcbs
    && forall v :: v in k.b.at && v in c.b.at && v in k.b.tcbs ==>
         c.b.at[v] == if IsDelayed(k, v) && k.due[v] <= k.time + n then Ready(k.b.tcbs[v].priority) else k.b.at[v]
  }

  /** The second loop of xTaskResumeAll: `n` pended ticks are counted, the next one at `t`. They
      wake exactly the tasks due by then, as if they had been counted when they came. */
  ghost function CaughtUp(k: Kernel, t: nat, n: nat): (c: Kernel)
    requires Steady(k) && k.suspended == 0 && n <= k.pended && t == k.time + 1
    ensures Steady(c) && c.suspended == 0 && c.due == k.due && c.current == k.current
    ensures c.time == k.time + n && c.pended == k.pended - n && c.ticks == k.ticks
    ensures WakesDue(k, c, n)
    decreases n
  {
    if n == 0 then
      NoneDue(k);
      k
    else
      TickedKeeps(k, t);
      TickedWakes(k, t);
      var c := CaughtUp(Ticked(k, t), t + 1, n - 1);
      WakesAdd(k, Ticked(k, t), c, n - 1);
      c
  }

  lemma NoneDue(k: Kernel)
    requires Steady(k)
    ensures WakesDue(k, k, 0)
  {
    forall v | IsDelayed(k, v) ensures k.due[v] > k.time { DelayedIsLater(k, v); }
  }

  lemma TickedWakes(k: Kernel, t: nat)
    requires Steady(k) && k.pended > 0 && k.suspended == 0 && t == k.time + 1
    ensures WakesDue(k, Ticked(k, t), 1)
  {
    TickedKeeps(k, t);
    forall v | v in k.b.at && v in k.b.tcbs
      ensures v in Ticked(k, t).b.at
      ensures Ticked(k, t).b.tcbs == k.b.tcbs
      ensures Ticked(k, t).b.at[v] == if IsDelayed(k, v) && k.due[v] <= k.time + 1 then Ready(k.b.tcbs[v].priority) else k.b.at[v]
    {
      TickedExact(k, t, v);
      if IsDelayed(k, v) { DelayedIsLater(k, v); }
    }
    TickedExact(k, t, IDLE);
  }

  lemma WakesAdd(k: Kernel, m: Kernel, c: Kernel, n: nat)
    requires WakesDue(k, m, 1) && WakesDue(m, c, n) && m.due == k.due && m.time == k.time + 1
    ensures WakesDue(k, c, n + 1)
  {
    forall v | v in k.b.at && v in c.b.at && v in k.b.tcbs
      ensures c.b.at[v] == if IsDelayed(k, v) && k.due[v] <= k.time + n + 1 then Ready(k.b.tcbs[v].priority) else k.b.at[v]
    {
      assert v in m.b.at;
    }
  }
}
