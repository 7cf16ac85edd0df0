/** The timer daemon over whole runs: expired timers, list switches, commands and blocking,
    with time passing anywhere in between. */
module TimerRuns {
  import opened Sequences
  import opened Ticks
  import opened Timers

  // The invariant.

  /** Every timer once, the one that expires first in front. */
  ghost predicate Ascending(timers: map<Id, Timer>, list: seq<Id>)
    requires forall u :: u in list ==> u in timers
  {
    list == [] ||
    (list[0] !in list[1..]
     && (forall u :: u in list[1..] ==> timers[list[0]].value <= timers[u].value)
     && Ascending(timers, list[1..]))
  }

  ghost predicate ArmedFor(d: Daemon, u: Id, epoch: nat)
    requires u in d.timers && u in d.plans
  {
    d.timers[u].active && d.timers[u].value == Low(Due(d, u)) && Epoch(Due(d, u)) == epoch
  }

  predicate Listed(d: Daemon, u: Id) { u in d.current || u in d.overflow }

  /** Both lists hold armed timers only: those for the running epoch and those for the next. */
  ghost predicate Placed(d: Daemon)
    requires WellFormed(d)
  {
    && (forall u :: u in d.current ==> u !in d.overflow && ArmedFor(d, u, Epoch(d.last)))
    && (forall u :: u in d.overflow ==> ArmedFor(d, u, Epoch(d.last) + 1))
  }

  /** Every active timer is listed, except `off`, which are being dealt with. */
  ghost predicate Complete(d: Daemon, off: set<Id>) {
    && (forall u :: u in d.timers && u !in off ==> (d.timers[u].active <==> Listed(d, u)))
    && (forall u :: u in off ==> !Listed(d, u))
  }

  ghost predicate Lists(d: Daemon, off: set<Id>) {
    && WellFormed(d)
    && Ascending(d.timers, d.current) && Ascending(d.timers, d.overflow)
    && Placed(d) && Complete(d, off)
  }

  /** The callbacks made since the start are those of the first due instants, none of them early. */
  predicate CallsExact(plan: Schedule, period: Tick, clock: nat) {
    plan.start <= clock
    && forall i :: 0 <= i < |plan.calls| ==>
      plan.calls[i].due == Instant(plan.start, period, i + 1) <= plan.calls[i].at <= clock
  }

  ghost predicate Calls(d: Daemon, clock: nat)
    requires WellFormed(d)
  {
    forall u :: u in d.timers ==> CallsExact(d.plans[u], d.timers[u].period, clock)
  }

  ghost predicate Inv(d: Daemon, off: set<Id>, clock: nat) {
    Lists(d, off) && Calls(d, clock) && d.last <= clock
  }

  // Lists.

  lemma {:induction false} AscendingFrame(timers: map<Id, Timer>, timers': map<Id, Timer>, list: seq<Id>)
    requires forall u :: u in list ==> u in timers && u in timers' && timers'[u].value == timers[u].value
    requires Ascending(timers, list)
    ensures Ascending(timers', list)
  {
    if list != [] { AscendingFrame(timers, timers', list[1..]); }
  }

  lemma {:induction false} AscendingWithout(timers: map<Id, Timer>, list: seq<Id>, id: Id)
    requires (forall u :: u in list ==> u in timers) && Ascending(timers, list)
    ensures Ascending(timers, Without(list, id))
    ensures id !in list ==> Without(list, id) == list
  {
    if list != [] {
      assert list == [list[0]] + list[1..];
      AscendingWithout(timers, list[1..], id);
      if list[0] != id {
        assert Without(list, id)[1..] == Without(list[1..], id);
      } else {
        assert Without(list, id) == Without(list[1..], id);
      }
    }
  }

  lemma {:induction false} AscendingInsert(timers: map<Id, Timer>, list: seq<Id>, id: Id)
    requires (forall u :: u in list ==> u in timers) && id in timers && id !in list && Ascending(timers, list)
    ensures Ascending(timers, Inserted(timers, list, id)) && |Inserted(timers, list, id)| == |list| + 1
  {
    if list == [] || timers[list[0]].value > timers[id].value {
      HeadIsFirst(timers, list);
      assert Inserted(timers, list, id)[1..] == list;
    } else {
      AscendingInsert(timers, list[1..], id);
      assert Inserted(timers, list, id)[1..] == Inserted(timers, list[1..], id);
    }
  }

  lemma HeadIsFirst(timers: map<Id, Timer>, list: seq<Id>)
    requires (forall u :: u in list ==> u in timers) && Ascending(timers, list)
    ensures list != [] ==> forall u :: u in list ==> timers[list[0]].value <= timers[u].value
  {
    if list != [] { assert list == [list[0]] + list[1..]; }
  }

  // Single steps of the daemon.

  /** Callbacks made no later than `now` for due instants up to `now` are exact ones. */
  lemma FireKeeps(plan: Schedule, period: Tick, n: nat, now: nat, clock: nat)
    requires CallsExact(plan, period, clock) && period > 0 && now <= clock
    requires Instant(plan.start, period, |plan.calls| + n) <= now
    ensures CallsExact(Fire(plan, period, n, now), period, clock)
  {
    var f := Fire(plan, period, n, now);
    FireAddsUp(plan, period, n, now);
    forall i | 0 <= i < |f.calls|
      ensures f.calls[i].due == Instant(f.start, period, i + 1) <= f.calls[i].at <= clock
    {
      if i < |plan.calls| {
        assert f.calls[i] == f.calls[..|plan.calls|][i];
      } else {
        InstantsGrow(plan.start, period, i + 1, |plan.calls| + n);
      }
    }
  }

  /** What the two lists say of a timer depends on its own fields only. */
  lemma PlacedFrame(d: Daemon, n: Daemon, id: Id)
    requires WellFormed(d) && WellFormed(n) && Placed(d) && n.last == d.last
    requires forall u :: u in d.timers && u != id ==> u in n.timers && n.timers[u] == d.timers[u] && n.plans[u] == d.plans[u]
    requires forall u :: u != id ==> (u in n.current <==> u in d.current) && (u in n.overflow <==> u in d.overflow)
    requires id in n.current ==> id !in n.overflow && ArmedFor(n, id, Epoch(n.last))
    requires id in n.overflow ==> ArmedFor(n, id, Epoch(n.last) + 1)
    ensures Placed(n)
  {
    forall u | u in n.current ensures u !in n.overflow && ArmedFor(n, u, Epoch(n.last)) {
      if u != id { assert ArmedFor(d, u, Epoch(d.last)); }
    }
    forall u | u in n.overflow ensures ArmedFor(n, u, Epoch(n.last) + 1) {
      if u != id { assert ArmedFor(d, u, Epoch(d.last) + 1); }
    }
  }

  lemma NextEpoch(now: nat, due: nat)
    requires now < due < now + WRAP
    ensures Epoch(due) == Epoch(now) || Epoch(due) == Epoch(now) + 1
  {
  }

  lemma ArmSorts(d: Daemon, id: Id, now: nat)
    requires WellFormed(d) && id in d.timers && !Listed(d, id)
    requires Ascending(d.timers, d.current) && Ascending(d.timers, d.overflow)
    ensures Ascending(Arm(d, id, now).timers, Arm(d, id, now).current)
    ensures Ascending(Arm(d, id, now).timers, Arm(d, id, now).overflow)
  {
    var n := Arm(d, id, now);
    AscendingFrame(d.timers, n.timers, d.current);
    AscendingFrame(d.timers, n.timers, d.overflow);
    if Epoch(Due(d, id)) == Epoch(now) {
      AscendingInsert(n.timers, d.current, id);
    } else {
      AscendingInsert(n.timers, d.overflow, id);
    }
  }

  lemma ArmPlaces(d: Daemon, id: Id, now: nat)
    requires WellFormed(d) && id in d.timers && !Listed(d, id) && d.timers[id].active && Placed(d)
    requires Epoch(now) == Epoch(d.last) && now < Due(d, id) < now + WRAP
    ensures Placed(Arm(d, id, now))
  {
    var n := Arm(d, id, now);
    assert Due(n, id) == Due(d, id);
    NextEpoch(now, Due(d, id));
    PlacedFrame(d, n, id);
  }

  /** Arming puts a timer that is off the lists on the one for the epoch of its expiry. */
  lemma ArmKeeps(d: Daemon, off: set<Id>, id: Id, now: nat, clock: nat)
    requires Inv(d, off + {id}, clock) && id in d.timers && d.timers[id].active && id !in off
    requires Epoch(now) == Epoch(d.last) && now < Due(d, id) < now + WRAP
    ensures Inv(Arm(d, id, now), off, clock)
  {
    assert id in off + {id};
    ArmSorts(d, id, now);
    ArmPlaces(d, id, now);
    ArmCompletes(d, off, id, now);
    ArmCalls(d, id, now, clock);
  }

  lemma ArmCalls(d: Daemon, id: Id, now: nat, clock: nat)
    requires WellFormed(d) && id in d.timers && Calls(d, clock)
    ensures WellFormed(Arm(d, id, now)) && Calls(Arm(d, id, now), clock) && Arm(d, id, now).last == d.last
  {
  }

  lemma ArmCompletes(d: Daemon, off: set<Id>, id: Id, now: nat)
    requires WellFormed(d) && id in d.timers && d.timers[id].active && id !in off && Complete(d, off + {id})
    ensures Complete(Arm(d, id, now), off)
  {
    var n := Arm(d, id, now);
    forall u | u in n.timers && u !in off ensures n.timers[u].active <==> Listed(n, u) {
      if u != id { assert u !in off + {id}; }
    }
    forall u | u in off ensures !Listed(n, u) { assert u in off + {id}; }
  }

  lemma ExpireKeeps(d: Daemon, off: set<Id>, id: Id, now: nat, clock: nat)
    requires Inv(d, off + {id}, clock) && id in d.timers && d.timers[id].active && id !in off
    requires Epoch(now) == Epoch(d.last) && Due(d, id) <= now <= clock
    ensures Inv(Expire(d, id, now), off, clock)
    ensures Epoch(now + 1) != Epoch(now) ==> Expire(d, id, now).current == d.current
  {
    var timer, plan := d.timers[id], d.plans[id];
    var n := if timer.autoReload then Backlog(Due(d, id), now, timer.period) + 1 else 1;
    var fired := d.(plans := d.plans[id := Fire(plan, timer.period, n, now)]);
    FireBacklog(d, id, n, now, clock);
    PlanKeeps(d, off + {id}, id, fired.plans[id], clock);
    if timer.autoReload {
      ArmKeeps(fired, off, id, now, clock);
      LastOfEpoch(now, Due(fired, id));
    } else {
      RetireKeeps(fired, off, id, timer.(value := Low(Due(d, id)), active := false), clock);
    }
  }

  /** The callbacks of an expired timer up to `now` are exact, and after a whole backlog the next
      one is due later. */
  lemma FireBacklog(d: Daemon, id: Id, n: nat, now: nat, clock: nat)
    requires WellFormed(d) && id in d.timers && Due(d, id) <= now <= clock
    requires CallsExact(d.plans[id], d.timers[id].period, clock)
    requires n == 1 || n == Backlog(Due(d, id), now, d.timers[id].period) + 1
    ensures var plan := Fire(d.plans[id], d.timers[id].period, n, now);
            && CallsExact(plan, d.timers[id].period, clock)
            && (n == Backlog(Due(d, id), now, d.timers[id].period) + 1 ==>
                now < Due(d.(plans := d.plans[id := plan]), id) < now + WRAP)
  {
    var plan, period := d.plans[id], d.timers[id].period;
    var made := |plan.calls|;
    BacklogExact(plan.start, made, period, now);
    FireAddsUp(plan, period, n, now);
    FireKeeps(plan, period, n, now, clock);
    assert Instant(plan.start, period, made + n + 1) == Instant(plan.start, period, made + n) + period;
  }

  lemma PlanKeeps(d: Daemon, off: set<Id>, id: Id, plan: Schedule, clock: nat)
    requires Inv(d, off, clock) && id in d.timers && id in off && CallsExact(plan, d.timers[id].period, clock)
    ensures Inv(d.(plans := d.plans[id := plan]), off, clock)
  {
    var n := d.(plans := d.plans[id := plan]);
    PlacedFrame(d, n, id);
    assert Calls(n, clock);
  }

  /** An inactive timer needs no list. */
  lemma RetireKeeps(d: Daemon, off: set<Id>, id: Id, timer: Timer, clock: nat)
    requires Inv(d, off + {id}, clock) && id in d.timers && !timer.active && timer.period == d.timers[id].period
    ensures Inv(d.(timers := d.timers[id := timer]), off, clock)
  {
    var n := d.(timers := d.timers[id := timer]);
    assert id in off + {id};
    AscendingFrame(d.timers, n.timers, d.current);
    AscendingFrame(d.timers, n.timers, d.overflow);
    PlacedFrame(d, n, id);
    forall u | u in n.timers && u !in off ensures n.timers[u].active <==> Listed(n, u) {
      if u != id { assert u !in off + {id}; }
    }
    forall u | u in off ensures !Listed(n, u) { assert u in off + {id}; }
  }

  lemma LastOfEpoch(now: nat, due: nat)
    requires now < due
    ensures Epoch(now + 1) != Epoch(now) ==> Epoch(due) != Epoch(now)
  {
  }

  lemma HeadKeeps(d: Daemon, off: set<Id>, now: nat, clock: nat)
    requires Inv(d, off, clock) && d.current != []
    requires Epoch(now) == Epoch(d.last) && Due(d, d.current[0]) <= now <= clock
    ensures Inv(ProcessHead(d, now), off, clock)
    ensures ProcessHead(d, now).last == d.last && ProcessHead(d, now).timers.Keys == d.timers.Keys
    ensures Epoch(now + 1) != Epoch(now) ==> ProcessHead(d, now).current == d.current[1..]
  {
    var id := d.current[0];
    HeadOff(d);
    RemoveKeeps(d, off, id, clock);
    ExpireKeeps(Unlisted(d, id), off, id, now, clock);
  }

  lemma HeadOff(d: Daemon)
    requires WellFormed(d) && d.current != [] && Placed(d)
    requires Ascending(d.timers, d.current) && Ascending(d.timers, d.overflow)
    ensures d.(current := d.current[1..]) == Unlisted(d, d.current[0])
    ensures d.timers[d.current[0]].active && Due(Unlisted(d, d.current[0]), d.current[0]) == Due(d, d.current[0])
  {
    var id := d.current[0];
    AscendingWithout(d.timers, d.current[1..], id);
    AscendingWithout(d.timers, d.overflow, id);
    assert Without(d.current, id) == d.current[1..];
  }

  /** uxListRemove, if the timer is on a list. */
  function Unlisted(d: Daemon, id: Id): Daemon {
    d.(current := Without(d.current, id), overflow := Without(d.overflow, id))
  }

  lemma RemoveKeeps(d: Daemon, off: set<Id>, id: Id, clock: nat)
    requires Inv(d, off, clock) && id in d.timers
    ensures Inv(Unlisted(d, id), off + {id}, clock)
  {
    var n := Unlisted(d, id);
    AscendingWithout(d.timers, d.current, id);
    AscendingWithout(d.timers, d.overflow, id);
    RemovePlaces(d, id);
    RemoveCompletes(d, off, id);
    assert Calls(n, clock);
  }

  lemma RemovePlaces(d: Daemon, id: Id)
    requires WellFormed(d) && Placed(d)
    ensures WellFormed(Unlisted(d, id)) && Placed(Unlisted(d, id))
  {
    PlacedFrame(d, Unlisted(d, id), id);
  }

  lemma RemoveCompletes(d: Daemon, off: set<Id>, id: Id)
    requires WellFormed(d) && Complete(d, off) && id in d.timers
    ensures Complete(Unlisted(d, id), off + {id})
  {
    var n := Unlisted(d, id);
    forall u | u in n.timers && u !in off + {id} ensures n.timers[u].active <==> Listed(n, u) {
      assert d.timers[u].active <==> Listed(d, u);
    }
  }

  // Sampling the time.

  /** The last tick of the epoch of the latest sample. */
  function LastTick(d: Daemon): nat { Epoch(d.last) * WRAP + MAX_DELAY }

  lemma LastTickEnds(d: Daemon, clock: nat)
    requires Epoch(clock) > Epoch(d.last)
    ensures Epoch(LastTick(d)) == Epoch(d.last) && Epoch(LastTick(d) + 1) != Epoch(d.last)
    ensures d.last <= LastTick(d) < clock
  {
    Join(Epoch(d.last), MAX_DELAY);
    Split(d.last);
    Split(clock);
  }

  lemma DueInEpoch(d: Daemon, id: Id)
    requires id in d.timers && id in d.plans && Epoch(Due(d, id)) <= Epoch(d.last)
    ensures Due(d, id) <= LastTick(d)
  {
    Split(Due(d, id));
  }

  /** The loop of prvSwitchTimerLists: everything left in the current list is processed as of
      the last tick before the wrap; nothing is put back into it, so the loop ends. */
  ghost function Drained(d: Daemon, off: set<Id>, clock: nat): (r: Daemon)
    requires Inv(d, off, clock) && Epoch(clock) > Epoch(d.last)
    ensures Inv(r, off, clock) && r.current == [] && r.last == d.last && r.timers.Keys == d.timers.Keys
    decreases |d.current|
  {
    if d.current == [] then d else
      LastTickEnds(d, clock);
      DueInEpoch(d, d.current[0]);
      HeadKeeps(d, off, LastTick(d), clock);
      Drained(ProcessHead(d, LastTick(d)), off, clock)
  }

  /** The daemon looks at the clock before the latest sample is one wrap old, if any timer is listed. */
  predicate OnTime(d: Daemon, now: nat) {
    d.last <= now && (now < d.last + WRAP || (d.current == [] && d.overflow == []))
  }

  /** The test of prvSampleTimeNow: the tick count is below the previous one. */
  predicate Wrapped(d: Daemon, now: nat) { Low(now) < Low(d.last) }

  lemma WrappedExact(d: Daemon, now: nat)
    requires d.last <= now < d.last + WRAP
    ensures Epoch(now) == if Wrapped(d, now) then Epoch(d.last) + 1 else Epoch(d.last)
  {
    Split(now);
    Split(d.last);
  }

  /** prvSampleTimeNow: when the tick count has wrapped, the current list is drained and the
      lists are switched. */
  ghost function Sampled(d: Daemon, off: set<Id>, now: nat): (r: Daemon)
    requires Inv(d, off, now) && OnTime(d, now)
  {
    if Wrapped(d, now) then
      var e := if d.current == [] then d else (WrappedExact(d, now); Drained(d, off, now));
      e.(current := e.overflow, overflow := e.current, last := now)
    else d.(last := now)
  }

  /** Over a sample, switched or not, every timer keeps its absolute expiry: the lists are those
      of the new epoch and the next. */
  lemma SampleKeeps(d: Daemon, off: set<Id>, now: nat)
    requires Inv(d, off, now) && OnTime(d, now)
    ensures Inv(Sampled(d, off, now), off, now)
    ensures Sampled(d, off, now).last == now && Sampled(d, off, now).timers.Keys == d.timers.Keys
  {
    var r := Sampled(d, off, now);
    if now < d.last + WRAP { WrappedExact(d, now); }
    if Wrapped(d, now) {
      SwitchPlaces(if d.current == [] then d else Drained(d, off, now), r);
    } else if d.current == [] && d.overflow == [] {
      assert Placed(r);
    } else {
      assert Placed(r) by { assert forall u :: u in d.timers ==> Due(r, u) == Due(d, u); }
    }
    assert Calls(r, now);
  }

  lemma SwitchPlaces(e: Daemon, r: Daemon)
    requires WellFormed(e) && Placed(e) && e.current == []
    requires r == e.(current := e.overflow, overflow := e.current, last := r.last)
    requires e.overflow != [] ==> Epoch(r.last) == Epoch(e.last) + 1
    ensures WellFormed(r) && Placed(r)
  {
    assert forall u :: u in e.timers ==> Due(r, u) == Due(e, u);
  }

  // Commands.

  /** The timer commands of the queue; the variants from interrupts do the same. Start and reset
      carry the tick count of their sender, here the clock value it was taken at. */
  datatype Command =
    | Start(id: Id, at: nat)
    | Stop(id: Id)
    | ChangePeriod(id: Id, period: Tick)
    | Delete(id: Id)

  /** A command names an existing timer and is less than one wrap old when it is processed. */
  predicate Legal(d: Daemon, c: Command, now: nat) {
    && c.id in d.timers
    && (c.Start? ==> c.at <= now < c.at + WRAP)
    && (c.ChangePeriod? ==> c.period > 0)
  }

  /** What a command does to its timer once that is off the lists and the time is sampled. */
  function Executed(d: Daemon, c: Command, now: nat): Daemon
    requires WellFormed(d) && Legal(d, c, now)
  {
    var timer := d.timers[c.id];
    match c
    case Start(id, at) =>
      var started := Scheduled(d, id, timer.period, at);
      if Due(started, id) <= now then Expire(started, id, now) else Arm(started, id, now)
    case Stop(id) => d.(timers := d.timers[id := timer.(active := false)])
    case ChangePeriod(id, period) => Arm(Scheduled(d, id, period, now), id, now)
    case Delete(id) => d.(timers := d.timers - {id}, plans := d.plans - {id})
  }

  function Scheduled(d: Daemon, id: Id, period: Tick, start: nat): Daemon
    requires WellFormed(d) && id in d.timers
  {
    d.(timers := d.timers[id := d.timers[id].(active := true, period := period)], plans := d.plans[id := Schedule(start, [])])
  }

  lemma ScheduledKeeps(d: Daemon, id: Id, period: Tick, start: nat, clock: nat)
    requires Inv(d, {id}, clock) && id in d.timers && period > 0 && start <= clock
    ensures Inv(Scheduled(d, id, period, start), {id}, clock)
    ensures Due(Scheduled(d, id, period, start), id) == start + period
  {
    var n := Scheduled(d, id, period, start);
    AscendingFrame(d.timers, n.timers, d.current);
    AscendingFrame(d.timers, n.timers, d.overflow);
    PlacedFrame(d, n, id);
    assert Calls(n, clock);
    assert Instant(start, period, 1) == Instant(start, period, 0) + period;
  }

  lemma DeleteKeeps(d: Daemon, id: Id, clock: nat)
    requires Inv(d, {id}, clock) && id in d.timers
    ensures Inv(d.(timers := d.timers - {id}, plans := d.plans - {id}), {}, clock)
  {
    var n := d.(timers := d.timers - {id}, plans := d.plans - {id});
    AscendingFrame(d.timers, n.timers, d.current);
    AscendingFrame(d.timers, n.timers, d.overflow);
    PlacedFrame(d, n, id);
    assert Calls(n, clock);
    assert Complete(n, {}) by {
      forall u | u in n.timers ensures n.timers[u].active <==> Listed(n, u) {
        assert u !in {id} && (d.timers[u].active <==> Listed(d, u));
      }
    }
  }

  lemma ExecutedKeeps(d: Daemon, c: Command, now: nat)
    requires Inv(d, {c.id}, now) && Legal(d, c, now) && d.last == now
    ensures Inv(Executed(d, c, now), {}, now)
  {
    assert {} + {c.id} == {c.id};
    var timer := d.timers[c.id];
    match c
    case Start(id, at) =>
      ScheduledKeeps(d, id, timer.period, at, now);
      var started := Scheduled(d, id, timer.period, at);
      if Due(started, id) <= now { ExpireKeeps(started, {}, id, now, now); } else { ArmKeeps(started, {}, id, now, now); }
    case Stop(id) =>
      RetireKeeps(d, {}, id, timer.(active := false), now);
    case ChangePeriod(id, period) =>
      ScheduledKeeps(d, id, period, now, now);
      ArmKeeps(Scheduled(d, id, period, now), {}, id, now, now);
    case Delete(id) => DeleteKeeps(d, id, now);
  }

  // Runs.

  /** What happens between two looks at the daemon: it passes once through its loop, it processes
      one command, the reload mode of a timer is set, or a timer is created. */
  datatype Event = Pass(now: nat) | Execute(c: Command, now: nat) | SetMode(id: Id, auto: bool) | Create(id: Id, timer: Timer)

  /** What the daemon asks for when it blocks: for how long, and whether for ever. */
  datatype Outcome = Switched | Processed | Blocked(wait: Tick, forever: bool)

  datatype State = State(d: Daemon, clock: nat)

  const BOOT := State(Daemon(map[], map[], [], [], 0), 0)

  ghost predicate Safe(s: State) { Inv(s.d, {}, s.clock) }

  /** Time moves forward, the daemon samples in time and commands are legal. */
  ghost predicate Enabled(s: State, e: Event) {
    match e
    case Pass(now) => s.clock <= now && OnTime(s.d, now)
    case Execute(c, now) => s.clock <= now && OnTime(s.d, now) && Legal(s.d, c, now)
    case SetMode(id, auto) => id in s.d.timers
    case Create(id, timer) => id !in s.d.timers && timer.period > 0 && !timer.active
  }

  lemma InvLater(d: Daemon, off: set<Id>, clock: nat, now: nat)
    requires Inv(d, off, clock) && clock <= now
    ensures Inv(d, off, now)
  {
    assert forall u :: u in d.timers ==> CallsExact(d.plans[u], d.timers[u].period, clock);
    assert Calls(d, now);
  }

  /** prvGetNextExpireTime. */
  function NextExpiry(d: Daemon): Tick
    requires WellFormed(d)
  {
    if d.current == [] then 0 else d.timers[d.current[0]].value
  }

  /** prvProcessTimerOrBlockTask after prvGetNextExpireTime: which way it goes. */
  ghost function OutcomeOf(d: Daemon, now: nat): Outcome
    requires WellFormed(d)
  {
    if Wrapped(d, now) then Switched
    else if d.current != [] && NextExpiry(d) <= Low(now) then Processed
    else Blocked(Minus(NextExpiry(d), Low(now)), d.current == [] && d.overflow == [])
  }

  /** The head is processed iff it is due. */
  lemma HeadDueExact(d: Daemon, now: nat)
    requires Lists(d, {}) && Epoch(now) == Epoch(d.last) && d.current != []
    ensures NextExpiry(d) <= Low(now) <==> Due(d, d.current[0]) <= now
    ensures NextExpiry(d) > Low(now) ==> now + Minus(NextExpiry(d), Low(now)) == Due(d, d.current[0])
  {
    Split(Due(d, d.current[0]));
    Split(now);
  }

  ghost function Passed(d: Daemon, now: nat): Daemon
    requires Inv(d, {}, now) && OnTime(d, now)
  {
    SampleKeeps(d, {}, now);
    if OutcomeOf(d, now) == Processed then
      WrappedExact(d, now);
      HeadDueExact(d, now);
      ProcessHead(d.(last := now), now)
    else Sampled(d, {}, now)
  }

  /** One command: its timer is taken off the lists first, then the time is sampled. */
  ghost function CommandDone(d: Daemon, c: Command, now: nat): Daemon
    requires Inv(d, {}, now) && OnTime(d, now) && Legal(d, c, now)
  {
    RemoveKeeps(d, {}, c.id, now);
    assert {} + {c.id} == {c.id};
    SampleKeeps(Unlisted(d, c.id), {c.id}, now);
    Executed(Sampled(Unlisted(d, c.id), {c.id}, now), c, now)
  }

  ghost function Step(s: State, e: Event): State
    requires Safe(s) && Enabled(s, e)
  {
    match e
    case Pass(now) =>
      InvLater(s.d, {}, s.clock, now);
      State(Passed(s.d, now), now)
    case Execute(c, now) =>
      InvLater(s.d, {}, s.clock, now);
      State(CommandDone(s.d, c, now), now)
    case SetMode(id, auto) => s.(d := s.d.(timers := s.d.timers[id := s.d.timers[id].(autoReload := auto)]))
    case Create(id, timer) => s.(d := s.d.(timers := s.d.timers[id := timer], plans := s.d.plans[id := Schedule(0, [])]))
  }

  lemma StepSafe(s: State, e: Event)
    requires Safe(s) && Enabled(s, e)
    ensures Safe(Step(s, e))
  {
    match e
    case Pass(now) =>
      InvLater(s.d, {}, s.clock, now);
      PassSafe(s.d, now);
    case Execute(c, now) =>
      InvLater(s.d, {}, s.clock, now);
      CommandSafe(s.d, c, now);
    case SetMode(id, auto) => ModeSafe(s, id, auto);
    case Create(id, timer) => CreateSafe(s, id, timer);
  }

  lemma CommandSafe(d: Daemon, c: Command, now: nat)
    requires Inv(d, {}, now) && OnTime(d, now) && Legal(d, c, now)
    ensures WellFormed(Unlisted(d, c.id)) && Inv(Unlisted(d, c.id), {c.id}, now) && OnTime(Unlisted(d, c.id), now)
    ensures Inv(Sampled(Unlisted(d, c.id), {c.id}, now), {c.id}, now)
    ensures Legal(Sampled(Unlisted(d, c.id), {c.id}, now), c, now) && !Listed(Sampled(Unlisted(d, c.id), {c.id}, now), c.id)
    ensures Inv(CommandDone(d, c, now), {}, now)
  {
    RemoveKeeps(d, {}, c.id, now);
    assert {} + {c.id} == {c.id};
    SampleKeeps(Unlisted(d, c.id), {c.id}, now);
    ExecutedKeeps(Sampled(Unlisted(d, c.id), {c.id}, now), c, now);
  }

  lemma PassSafe(d: Daemon, now: nat)
    requires Inv(d, {}, now) && OnTime(d, now)
    ensures Inv(Passed(d, now), {}, now)
  {
    SampleKeeps(d, {}, now);
    if OutcomeOf(d, now) == Processed {
      WrappedExact(d, now);
      HeadDueExact(d, now);
      HeadKeeps(d.(last := now), {}, now, now);
    }
  }

  lemma ModeSafe(s: State, id: Id, auto: bool)
    requires Safe(s) && id in s.d.timers
    ensures Safe(Step(s, SetMode(id, auto)))
  {
    var d, n := s.d, Step(s, SetMode(id, auto)).d;
    AscendingFrame(d.timers, n.timers, d.current);
    AscendingFrame(d.timers, n.timers, d.overflow);
    assert Due(n, id) == Due(d, id);
    PlacedFrame(d, n, id);
    assert Complete(n, {}) by {
      forall u | u in n.timers ensures n.timers[u].active <==> Listed(n, u) {
        assert d.timers[u].active <==> Listed(d, u);
      }
    }
    assert Calls(n, s.clock);
  }

  lemma CreateSafe(s: State, id: Id, timer: Timer)
    requires Safe(s) && Enabled(s, Create(id, timer))
    ensures Safe(Step(s, Create(id, timer)))
  {
    var d, n := s.d, Step(s, Create(id, timer)).d;
    AscendingFrame(d.timers, n.timers, d.current);
    AscendingFrame(d.timers, n.timers, d.overflow);
    PlacedFrame(d, n, id);
    assert Complete(n, {}) by {
      forall u | u in n.timers ensures n.timers[u].active <==> Listed(n, u) {
        if u != id { assert d.timers[u].active <==> Listed(d, u); }
      }
    }
    assert Calls(n, s.clock);
  }

  // The main results.

  /** A run of events, each enabled where it happens. */
  ghost predicate Run(s: State, events: seq<Event>)
    requires Safe(s)
    decreases |events|
  {
    events == [] || (Enabled(s, events[0]) && (StepSafe(s, events[0]); Run(Step(s, events[0]), events[1..])))
  }

  ghost function After(s: State, events: seq<Event>): (r: State)
    requires Safe(s) && Run(s, events)
    ensures Safe(r)
    decreases |events|
  {
    if events == [] then s else (StepSafe(s, events[0]); After(Step(s, events[0]), events[1..]))
  }

  /** Between two passes of the daemon in any run: the callbacks made for a timer since it was last
      started are for exactly the first instants it was due, in order, and none was early; it is
      ACTIVE iff it is listed, on one list only, the one for the epoch of its next expiry. */
  lemma AnyRun(events: seq<Event>, u: Id)
    requires Safe(BOOT) && Run(BOOT, events) && u in After(BOOT, events).d.timers
    ensures var s := After(BOOT, events); var plan := s.d.plans[u];
            && (forall i :: 0 <= i < |plan.calls| ==>
                plan.calls[i].due == plan.start + (i + 1) * s.d.timers[u].period <= plan.calls[i].at <= s.clock)
            && (s.d.timers[u].active <==> Listed(s.d, u))
            && !(u in s.d.current && u in s.d.overflow)
            && (Listed(s.d, u) ==>
                s.d.timers[u].value == Low(Due(s.d, u))
                && Epoch(Due(s.d, u)) == if u in s.d.current then Epoch(s.d.last) else Epoch(s.d.last) + 1)
  {
    var s := After(BOOT, events);
    var plan := s.d.plans[u];
    assert CallsExact(plan, s.d.timers[u].period, s.clock);
    forall i | 0 <= i < |plan.calls|
      ensures plan.calls[i].due == plan.start + (i + 1) * s.d.timers[u].period <= plan.calls[i].at <= s.clock
    {
      InstantIs(plan.start, s.d.timers[u].period, i + 1);
    }
  }

  lemma BootSafe()
    ensures Safe(BOOT)
  {
  }

  /** When the daemon blocks, nothing is due any more: every active timer is due later, and has
      had a callback for each of its instants up to now. */
  lemma BlockedMeansServed(s: State, now: nat, u: Id)
    requires Safe(s) && Enabled(s, Pass(now)) && OutcomeOf(s.d, now).Blocked?
    requires u in s.d.timers && s.d.timers[u].active
    ensures Due(Step(s, Pass(now)).d, u) > now
    ensures var plan := Step(s, Pass(now)).d.plans[u];
            plan.start <= now && |plan.calls| == (now - plan.start) / s.d.timers[u].period
  {
    InvLater(s.d, {}, s.clock, now);
    ListedLater(s.d, now);
    assert Listed(s.d, u);
    var plan, period := s.d.plans[u], s.d.timers[u].period;
    var n := |plan.calls|;
    InstantIs(plan.start, period, n);
    InstantIs(plan.start, period, n + 1);
    assert CallsExact(plan, period, s.clock);
    if n > 0 { assert plan.calls[n - 1].due <= now; }
    Quotient(now - plan.start, period, n);
  }

  /** No listed timer is due when the daemon goes on to block. */
  lemma ListedLater(d: Daemon, now: nat)
    requires Inv(d, {}, now) && OnTime(d, now) && OutcomeOf(d, now).Blocked?
    ensures forall u :: u in d.timers && Listed(d, u) ==> Due(d, u) > now
  {
    forall u | u in d.timers && Listed(d, u) ensures Due(d, u) > now {
      WrappedExact(d, now);
      Split(Due(d, u));
      Split(now);
      if u in d.current {
        HeadIsFirst(d.timers, d.current);
        HeadDueExact(d, now);
      }
    }
  }

  /** How long it blocks: for ever iff no timer is active; else no longer than until the first
      due instant, and exactly until then if that is in the running epoch; else until the tick
      count wraps, or not at all when it has just done so. */
  lemma BlockedInTime(s: State, now: nat)
    requires Safe(s) && Enabled(s, Pass(now)) && OutcomeOf(s.d, now).Blocked?
    ensures var b := OutcomeOf(s.d, now);
            && (b.forever <==> forall u :: u in s.d.timers ==> !s.d.timers[u].active)
            && (!b.forever ==>
                && (forall u :: u in s.d.timers && s.d.timers[u].active ==> now + b.wait <= Due(s.d, u))
                && (s.d.current != [] ==> now + b.wait == Due(s.d, s.d.current[0]))
                && (s.d.current == [] && Low(now) > 0 ==> now + b.wait == (Epoch(now) + 1) * WRAP)
                && (s.d.current == [] && Low(now) == 0 ==> b.wait == 0))
  {
    InvLater(s.d, {}, s.clock, now);
    ListedLater(s.d, now);
    var d, b := s.d, OutcomeOf(s.d, now);
    if b.forever {
      assert forall u :: u in d.timers ==> (d.timers[u].active <==> Listed(d, u));
    } else {
      WrappedExact(d, now);
      Split(now);
      if d.current != [] {
        assert Listed(d, d.current[0]);
        HeadDueExact(d, now);
      } else {
        assert Listed(d, d.overflow[0]);
      }
      forall u | u in d.timers && d.timers[u].active ensures now + b.wait <= Due(d, u) {
        Split(Due(d, u));
        HeadIsFirst(d.timers, d.current);
        if d.current != [] { Split(Due(d, d.current[0])); }
      }
    }
  }

  /** Timer `u` is inactive in `n` and has had no callback since `d`. */
  predicate Quiet(d: Daemon, n: Daemon, u: Id) {
    u in d.plans && u in n.timers && u in n.plans && n.plans[u] == d.plans[u] && !n.timers[u].active
  }

  /** An inactive timer gets no callback and no list until a command starts it. */
  lemma InactiveStaysQuiet(s: State, e: Event, u: Id)
    requires Safe(s) && Enabled(s, e) && u in s.d.timers && !s.d.timers[u].active
    requires e.Execute? ==> e.c.id != u
    ensures Quiet(s.d, Step(s, e).d, u)
  {
    match e
    case Pass(now) =>
      InvLater(s.d, {}, s.clock, now);
      PassQuiet(s.d, now, u);
    case Execute(c, now) =>
      InvLater(s.d, {}, s.clock, now);
      CommandQuiet(s, c, now, u);
    case SetMode(_, _) =>
    case Create(_, _) =>
  }

  lemma CommandQuiet(s: State, c: Command, now: nat, u: Id)
    requires Safe(s) && Enabled(s, Execute(c, now)) && u in s.d.timers && !s.d.timers[u].active && c.id != u
    ensures Quiet(s.d, Step(s, Execute(c, now)).d, u)
  {
    var d := Unlisted(s.d, c.id);
    InvLater(s.d, {}, s.clock, now);
    RemoveKeeps(s.d, {}, c.id, now);
    assert {} + {c.id} == {c.id};
    SampledQuiet(d, {c.id}, now, u);
    SampleKeeps(d, {c.id}, now);
    ExecutedQuiet(Sampled(d, {c.id}, now), c, now, u);
  }

  lemma ExecutedQuiet(d: Daemon, c: Command, now: nat, u: Id)
    requires WellFormed(d) && Legal(d, c, now) && u in d.timers && !d.timers[u].active && c.id != u
    ensures Quiet(d, Executed(d, c, now), u)
  {
  }

  lemma PassQuiet(d: Daemon, now: nat, u: Id)
    requires Inv(d, {}, now) && OnTime(d, now) && u in d.timers && !d.timers[u].active
    ensures Quiet(d, Passed(d, now), u)
  {
    SampledQuiet(d, {}, now, u);
    if OutcomeOf(d, now) == Processed {
      WrappedExact(d, now);
      HeadDueExact(d, now);
      assert Listed(d, d.current[0]);
    }
  }

  lemma SampledQuiet(d: Daemon, off: set<Id>, now: nat, u: Id)
    requires Inv(d, off, now) && OnTime(d, now) && u in d.timers && !d.timers[u].active && u !in off
    ensures Quiet(d, Sampled(d, off, now), u)
  {
    if Wrapped(d, now) && d.current != [] {
      WrappedExact(d, now);
      DrainedQuiet(d, off, now, u);
    }
  }

  lemma HeadQuiet(d: Daemon, now: nat, u: Id)
    requires WellFormed(d) && Placed(d) && d.current != [] && Due(d, d.current[0]) <= now
    requires u in d.timers && !d.timers[u].active
    ensures Quiet(d, ProcessHead(d, now), u)
  {
    assert d.current[0] in d.current;
  }

  lemma {:induction false} DrainedQuiet(d: Daemon, off: set<Id>, clock: nat, u: Id)
    requires Inv(d, off, clock) && Epoch(clock) > Epoch(d.last) && u in d.timers && !d.timers[u].active && u !in off
    ensures Quiet(d, Drained(d, off, clock), u)
    decreases |d.current|
  {
    if d.current != [] {
      LastTickEnds(d, clock);
      DueInEpoch(d, d.current[0]);
      HeadKeeps(d, off, LastTick(d), clock);
      HeadQuiet(d, LastTick(d), u);
      DrainedQuiet(ProcessHead(d, LastTick(d)), off, clock, u);
    }
  }
}
