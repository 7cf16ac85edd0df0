/** The static functions of freertos/timers.c as methods on the daemon's variables: they compute
    with tick counts only, and are proved against the unbounded-clock model. */
module TimerService {
  import opened Sequences
  import opened Ticks
  import opened Timers
  import opened TimerRuns

  class TimerTask {
    var timers: map<Id, Timer>
    var current: seq<Id>   // pxCurrentTimerList
    var overflow: seq<Id>  // pxOverflowTimerList
    var lastTime: Tick     // xLastTime
    ghost var plans: map<Id, Schedule>
    ghost var last: nat

    ghost function View(): Daemon reads this { Daemon(timers, plans, current, overflow, last) }

    ghost predicate Valid() reads this { WellFormed(View()) && lastTime == Low(last) }

    constructor ()
      ensures Valid() && View() == BOOT.d
    {
      timers, current, overflow, lastTime := map[], [], [], 0;
      plans, last := map[], 0;
    }

    /** The callback of a timer is called: one more due instant is served. */
    ghost method Callback(id: Id, now: nat)
      requires Valid() && id in timers
      modifies this`plans
      ensures Valid()
      ensures plans == old(plans)[id := Fire(old(plans)[id], timers[id].period, 1, now)]
    {
      plans := plans[id := Fire(plans[id], timers[id].period, 1, now)];
    }

    /** prvInsertTimerInActiveList, for a timer last started or expired at `command`. */
    method InsertTimerInActiveList(id: Id, nextExpiryTime: Tick, timeNow: Tick, commandTime: Tick, ghost command: nat, ghost now: nat)
      returns (processTimerNow: bool)
      requires Valid() && id in timers
      requires command <= now < command + WRAP && commandTime == Low(command) && timeNow == Low(now)
      requires nextExpiryTime == Low(command + timers[id].period)
      modifies this`timers, this`current, this`overflow
      ensures Valid()
      ensures processTimerNow <==> command + old(timers)[id].period <= now
      ensures !processTimerNow ==> View() == old(Place(View(), id, command + timers[id].period, now))
      ensures processTimerNow ==>
                View() == old(View()).(timers := old(timers)[id := old(timers)[id].(value := nextExpiryTime)])
    {
      processTimerNow := false;
      ClassifyExact(command, now, timers[id].period);
      timers := timers[id := timers[id].(value := nextExpiryTime)];
      if nextExpiryTime <= timeNow {
        if Minus(timeNow, commandTime) >= timers[id].period {
          processTimerNow := true;
        } else {
          overflow := Inserted(timers, overflow, id);
        }
      } else {
        if timeNow < commandTime && nextExpiryTime >= commandTime {
          processTimerNow := true;
        } else {
          current := Inserted(timers, current, id);
        }
      }
    }

    /** The loop test of prvReloadTimer after `k` further callbacks: is the next instant due too? */
    method ReinsertTimer(id: Id, expired: Tick, timeNow: Tick, ghost d: Daemon, ghost k: nat, ghost now: nat) returns (again: bool)
      requires Valid() && id in timers && Reloading(d, View(), id, k, now)
      requires expired == Low(Late(d, id, k)) && timeNow == Low(now)
      modifies this`timers, this`current, this`overflow
      ensures Valid() && id in timers
      ensures again <==> Late(d, id, k + 1) <= now
      ensures again ==> Reloading(d, View(), id, k, now)
      ensures !again ==> View() == Place(Fired(d, id, k, now), id, Late(d, id, k + 1), now)
    {
      NextLate(d, id, k);
      PlaceForgets(View(), Fired(d, id, k, now), id, Late(d, id, k + 1), now);
      again := InsertTimerInActiveList(id, Plus(expired, timers[id].period), timeNow, expired, Late(d, id, k), now);
    }

    /** prvReloadTimer: one callback for every further instant due by `now`, then the timer is put
        on the list of the first one after. The callback for `expired` itself is the caller's. */
    method ReloadTimer(id: Id, expiredTime: Tick, timeNow: Tick, ghost now: nat)
      requires Valid() && id in timers && timeNow == Low(now)
      requires expiredTime == Low(Due(View(), id)) && Due(View(), id) <= now < Due(View(), id) + WRAP
      modifies this`timers, this`current, this`overflow, this`plans
      ensures Valid() && id in timers
      ensures var d := old(View());
              var n := Backlog(Due(d, id), now, d.timers[id].period);
              View() == Place(Fired(d, id, n, now), id, Late(d, id, n + 1), now)
    {
      ghost var d, k := View(), 0;
      var expired := expiredTime;
      var again := ReinsertTimer(id, expired, timeNow, d, k, now);
      while again
        invariant Valid() && id in timers && expired == Low(Late(d, id, k))
        invariant again <==> Late(d, id, k + 1) <= now
        invariant again ==> Reloading(d, View(), id, k, now)
        invariant !again ==> Late(d, id, k) <= now && View() == Place(Fired(d, id, k, now), id, Late(d, id, k + 1), now)
        decreases now - Late(d, id, k)
      {
        NextLate(d, id, k);
        FiredOneMore(View(), d, id, k, now);
        expired := Plus(expired, timers[id].period);
        Callback(id, now);
        k := k + 1;
        again := ReinsertTimer(id, expired, timeNow, d, k, now);
      }
      LateCount(d, id, k, now);
    }

    /** A timer that has expired and is off the lists: an auto-reload timer is reloaded, a one-shot
        timer becomes inactive, and the callback is made. The second half of prvProcessExpiredTimer,
        and again part of the start command. */
    method ExpireTimer(id: Id, expiredTime: Tick, timeNow: Tick, ghost now: nat)
      requires Valid() && id in timers && timeNow == Low(now)
      requires expiredTime == timers[id].value == Low(Due(View(), id)) && Due(View(), id) <= now < Due(View(), id) + WRAP
      modifies this`timers, this`current, this`overflow, this`plans
      ensures Valid() && View() == old(Expire(View(), id, now))
    {
      hide Place, Arm, Backlog, Instant, Epoch, Inserted, Late;
      ghost var d := View();
      if timers[id].autoReload {
        ReloadTimer(id, expiredTime, timeNow, now);
        LastCallback(d, id, Backlog(Due(d, id), now, d.timers[id].period), now);
      } else {
        timers := timers[id := timers[id].(active := false)];
      }
      Callback(id, now);
    }

    /** prvProcessExpiredTimer. */
    method ProcessExpiredTimer(nextExpireTime: Tick, timeNow: Tick, ghost now: nat)
      requires Valid() && current != [] && timeNow == Low(now)
      requires var due := Due(View(), current[0]);
               nextExpireTime == timers[current[0]].value == Low(due) && due <= now < due + WRAP
      modifies this`timers, this`current, this`overflow, this`plans
      ensures Valid() && View() == old(ProcessHead(View(), now))
    {
      var id := current[0];
      current := current[1..];
      ExpireTimer(id, nextExpireTime, timeNow, now);
    }

    /** prvSwitchTimerLists; the clock is in the epoch after the latest sample if any timer is left. */
    method SwitchTimerLists(ghost off: set<Id>, ghost clock: nat)
      requires Valid() && Inv(View(), off, clock) && (current != [] ==> Epoch(clock) > Epoch(last))
      modifies this`timers, this`current, this`overflow, this`plans
      ensures Valid()
      ensures var d := old(View());
              var e := if d.current == [] then d else Drained(d, off, clock);
              View() == e.(current := e.overflow, overflow := e.current)
    {
      hide Inv, Inserted, Place, Instant, Backlog, Fire;
      ghost var d := View();
      while current != []
        invariant Valid() && Inv(View(), off, clock) && (current != [] ==> Epoch(clock) > Epoch(last))
        invariant d.current == [] ==> View() == d
        invariant d.current != [] ==> Epoch(clock) > Epoch(last) && Drained(View(), off, clock) == Drained(d, off, clock)
        decreases |current|
      {
        DrainStep(View(), off, clock);
        var nextExpireTime := timers[current[0]].value;
        ProcessExpiredTimer(nextExpireTime, MAX_DELAY, LastTick(View()));
      }
      var temp := current;
      current := overflow;
      overflow := temp;
    }

    /** prvSampleTimeNow. */
    method SampleTimeNow(tickCount: Tick, ghost off: set<Id>, ghost now: nat) returns (timeNow: Tick, switched: bool)
      requires Valid() && Inv(View(), off, now) && OnTime(View(), now) && tickCount == Low(now)
      modifies this
      ensures Valid() && View() == old(Sampled(View(), off, now))
      ensures timeNow == tickCount && switched == old(Wrapped(View(), now))
    {
      timeNow := tickCount;
      switched := timeNow < lastTime;
      if switched {
        if current != [] { WrappedExact(View(), now); }
        SwitchTimerLists(off, now);
      }
      lastTime, last := timeNow, now;
    }

    /** The start and reset commands. */
    method Start(id: Id, commandTime: Tick, timeNow: Tick, ghost at: nat, ghost now: nat)
      requires Valid() && id in timers && at <= now < at + WRAP && commandTime == Low(at) && timeNow == Low(now)
      modifies this`timers, this`current, this`overflow, this`plans
      ensures Valid() && View() == old(Executed(View(), Command.Start(id, at), now))
    {
      timers, plans := timers[id := timers[id].(active := true)], plans[id := Schedule(at, [])];
      ghost var d := View();
      PlusIsLow(at, timers[id].period);
      FirstInstant(d, id);
      var late := InsertTimerInActiveList(id, Plus(commandTime, timers[id].period), timeNow, commandTime, at, now);
      if late {
        ExpireForgets(View(), d, id, now);
        ExpireTimer(id, Plus(commandTime, timers[id].period), timeNow, now);
      }
    }

    /** The switch statement of prvProcessReceivedCommands, on a timer that is off the lists. */
    method Dispatch(c: Message, timeNow: Tick, ghost at: nat, ghost now: nat)
      requires Valid() && timeNow == Low(now) && (c.StartMessage? ==> c.value == Low(at))
      requires Legal(View(), Meaning(c, at), now) && !Listed(View(), c.id)
      modifies this`timers, this`current, this`overflow, this`plans
      ensures Valid() && View() == old(Executed(View(), Meaning(c, at), now))
    {
      match c
      case StartMessage(id, value) => Start(id, value, timeNow, at, now);
      case StopMessage(id) => timers := timers[id := timers[id].(active := false)];
      case ChangePeriodMessage(id, value) =>
        timers, plans := timers[id := timers[id].(active := true, period := value)], plans[id := Schedule(now, [])];
        PlusIsLow(now, value);
        FirstInstant(View(), id);
        var _ := InsertTimerInActiveList(id, Plus(timeNow, timers[id].period), timeNow, timeNow, now, now);
      case DeleteMessage(id) => timers, plans := timers - {id}, plans - {id};
    }

    /** Whatever list the timer is on, the command takes it off. */
    method TakeOff(id: Id)
      requires lastTime == Low(last) && WellFormed(Unlisted(View(), id))
      modifies this`current, this`overflow
      ensures Valid() && View() == old(Unlisted(View(), id))
    {
      hide WellFormed, Without;
      current, overflow := Without(current, id), Without(overflow, id);
    }

    /** One turn of the loop of prvProcessReceivedCommands: a message is dealt with. */
    method ProcessCommand(c: Message, tickCount: Tick, ghost at: nat, ghost now: nat)
      requires Valid() && Inv(View(), {}, now) && OnTime(View(), now) && tickCount == Low(now)
      requires (c.StartMessage? ==> c.value == Low(at)) && Legal(View(), Meaning(c, at), now)
      modifies this
      ensures Valid() && View() == old(CommandDone(View(), Meaning(c, at), now))
    {
      CommandSafe(View(), Meaning(c, at), now);
      hide Inv, Legal, OnTime, Sampled, Executed, WellFormed, Unlisted, Listed, Wrapped;
      TakeOff(c.id);
      var timeNow, _ := SampleTimeNow(tickCount, {c.id}, now);
      Dispatch(c, timeNow, at, now);
    }

    /** prvProcessTimerOrBlockTask, after prvGetNextExpireTime. */
    method ProcessTimerOrBlock(tickCount: Tick, ghost now: nat) returns (o: Outcome)
      requires Valid() && Inv(View(), {}, now) && OnTime(View(), now) && tickCount == Low(now)
      modifies this
      ensures Valid() && Inv(View(), {}, now)
      ensures View() == old(Passed(View(), now)) && o == old(OutcomeOf(View(), now))
    {
      var listWasEmpty := current == [];
      var nextExpireTime := if listWasEmpty then 0 else timers[current[0]].value;
      SampleKeeps(View(), {}, now);
      PassSafe(View(), now);
      var timeNow, switched := SampleTimeNow(tickCount, {}, now);
      if !switched {
        if !listWasEmpty && nextExpireTime <= timeNow {
          HeadDueExact(View(), now);
          ProcessExpiredTimer(nextExpireTime, timeNow, now);
          o := Processed;
        } else {
          if listWasEmpty { listWasEmpty := overflow == []; }
          o := Blocked(Minus(nextExpireTime, timeNow), listWasEmpty);
        }
      } else {
        o := Switched;
      }
    }
  }

  /** A DaemonTaskMessage_t: only tick counts travel through the queue. */
  datatype Message =
    | StartMessage(id: Id, value: Tick)
    | StopMessage(id: Id)
    | ChangePeriodMessage(id: Id, value: Tick)
    | DeleteMessage(id: Id)

  /** What a message asks for, if its tick count was taken at clock value `at`. */
  function Meaning(m: Message, at: nat): Command {
    match m
    case StartMessage(id, _) => Command.Start(id, at)
    case StopMessage(id) => Stop(id)
    case ChangePeriodMessage(id, value) => ChangePeriod(id, value)
    case DeleteMessage(id) => Delete(id)
  }

  lemma FirstInstant(d: Daemon, id: Id)
    requires id in d.timers && id in d.plans && d.plans[id].calls == []
    ensures Due(d, id) == d.plans[id].start + d.timers[id].period
  {
    assert Instant(d.plans[id].start, d.timers[id].period, 1) == Instant(d.plans[id].start, d.timers[id].period, 0) + d.timers[id].period;
  }

  lemma ExpireForgets(a: Daemon, b: Daemon, id: Id, now: nat)
    requires WellFormed(a) && WellFormed(b) && id in a.timers && id in b.timers && SameButValue(a, b, id) && Due(b, id) <= now
    ensures Due(a, id) == Due(b, id) && Expire(a, id, now) == Expire(b, id, now)
  {
    hide Inserted, Low, Epoch;
    var timer := b.timers[id];
    if timer.autoReload {
      var n := Backlog(Due(b, id), now, timer.period) + 1;
      PlaceForgets(Fired(a, id, n, now), Fired(b, id, n, now), id, Due(Fired(b, id, n, now), id), now);
    } else {
      assert Expire(a, id, now).timers == Expire(b, id, now).timers;
    }
  }

  /** One round of the loop in prvSwitchTimerLists: the head of the list expired before the wrap. */
  lemma DrainStep(d: Daemon, off: set<Id>, clock: nat)
    requires Inv(d, off, clock) && Epoch(clock) > Epoch(d.last) && d.current != []
    ensures LastTick(d) % WRAP == MAX_DELAY
    ensures var due := Due(d, d.current[0]);
            d.timers[d.current[0]].value == Low(due) && due <= LastTick(d) < due + WRAP
    ensures Inv(ProcessHead(d, LastTick(d)), off, clock) && ProcessHead(d, LastTick(d)).last == d.last
    ensures |ProcessHead(d, LastTick(d)).current| < |d.current|
    ensures Drained(ProcessHead(d, LastTick(d)), off, clock) == Drained(d, off, clock)
  {
    LastTickEnds(d, clock);
    Join(Epoch(d.last), MAX_DELAY);
    DueInEpoch(d, d.current[0]);
    Split(Due(d, d.current[0]));
    HeadKeeps(d, off, LastTick(d), clock);
  }

  /** The k-th instant after the one a timer has just expired at. */
  function Late(d: Daemon, id: Id, k: nat): nat
    requires id in d.timers && id in d.plans
  {
    Instant(d.plans[id].start, d.timers[id].period, |d.plans[id].calls| + 1 + k)
  }

  /** `v` is `d` with `k` more callbacks made and the timer still off the lists. */
  predicate Reloading(d: Daemon, v: Daemon, id: Id, k: nat, now: nat) {
    WellFormed(d) && id in d.timers && id in v.timers && SameButValue(v, Fired(d, id, k, now), id)
    && Late(d, id, k) <= now < Late(d, id, k) + WRAP
  }

  /** The first instant not reached comes after the whole backlog. */
  lemma {:induction false} LateCount(d: Daemon, id: Id, k: nat, now: nat)
    requires WellFormed(d) && id in d.timers && Due(d, id) <= now
    requires Late(d, id, k) <= now < Late(d, id, k + 1)
    ensures k == Backlog(Due(d, id), now, d.timers[id].period)
  {
    var start, period, made := d.plans[id].start, d.timers[id].period, |d.plans[id].calls|;
    var n := Backlog(Due(d, id), now, period);
    BacklogExact(start, made, period, now);
    if k < n { InstantsGrow(start, period, made + k + 2, made + n + 1); }
    if n < k { InstantsGrow(start, period, made + n + 2, made + k + 1); }
  }

  /** The daemon after `n` more callbacks of a timer. */
  function Fired(d: Daemon, id: Id, n: nat, now: nat): Daemon
    requires id in d.timers && id in d.plans
  {
    d.(plans := d.plans[id := Fire(d.plans[id], d.timers[id].period, n, now)])
  }

  predicate SameButValue(a: Daemon, b: Daemon, id: Id)
    requires id in a.timers && id in b.timers
  {
    a == b.(timers := b.timers[id := b.timers[id].(value := a.timers[id].value)])
  }

  lemma PlaceForgets(a: Daemon, b: Daemon, id: Id, due: nat, now: nat)
    requires WellFormed(a) && WellFormed(b) && id in a.timers && id in b.timers && SameButValue(a, b, id)
    ensures Place(a, id, due, now) == Place(b, id, due, now)
  {
    assert a.timers[id := a.timers[id].(value := Low(due))] == b.timers[id := b.timers[id].(value := Low(due))];
  }

  lemma FiredOneMore(v: Daemon, d: Daemon, id: Id, n: nat, now: nat)
    requires WellFormed(v) && WellFormed(d) && id in v.timers && id in d.timers && SameButValue(v, Fired(d, id, n, now), id)
    ensures SameButValue(Fired(v, id, 1, now), Fired(d, id, n + 1, now), id)
  {
    FireOneMore(d.plans[id], d.timers[id].period, n, now);
    assert Fired(v, id, 1, now).plans == Fired(d, id, n + 1, now).plans;
  }

  lemma NextLate(d: Daemon, id: Id, k: nat)
    requires id in d.timers && id in d.plans
    ensures Late(d, id, k + 1) == Late(d, id, k) + d.timers[id].period
    ensures Plus(Low(Late(d, id, k)), d.timers[id].period) == Low(Late(d, id, k + 1))
  {
    PlusIsLow(Late(d, id, k), d.timers[id].period);
  }

  /** The callback that prvProcessExpiredTimer makes after the reload completes the backlog. */
  lemma LastCallback(d: Daemon, id: Id, n: nat, now: nat)
    requires WellFormed(d) && id in d.timers
    ensures Fired(Place(Fired(d, id, n, now), id, Late(d, id, n + 1), now), id, 1, now)
            == Arm(Fired(d, id, n + 1, now), id, now)
  {
    var plan, period := d.plans[id], d.timers[id].period;
    FireOneMore(plan, period, n, now);
    FireAddsUp(plan, period, n + 1, now);
    assert Due(Fired(d, id, n + 1, now), id) == Late(d, id, n + 1);
    assert Fired(Fired(d, id, n, now), id, 1, now) == Fired(d, id, n + 1, now);
  }
}
