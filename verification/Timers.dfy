/** The software timers of freertos/timers.c against an unbounded clock: where a timer is
    inserted, what is due, and which callbacks have been made. */
module Timers {
  import opened Sequences
  import opened Ticks

  type Id = nat

  /** The fields of a Timer_t; `value` is the value of its list item. */
  datatype Timer = Timer(value: Tick, period: Tick, autoReload: bool, active: bool)

  /** One callback: the instant it was due and the clock value it was made at. */
  datatype Call = Call(due: nat, at: nat)

  /** The history of a timer since it was last started: when, and the callbacks made since. */
  datatype Schedule = Schedule(start: nat, calls: seq<Call>)

  /** `last` is the clock value of the latest sample, of which xLastTime keeps the low half. */
  datatype Daemon = Daemon(
    timers: map<Id, Timer>,
    plans: map<Id, Schedule>,
    current: seq<Id>,
    overflow: seq<Id>,
    last: nat)

  // Where a timer goes.

  datatype Verdict = ProcessNow | IntoOverflow | IntoCurrent

  /** The branches of prvInsertTimerInActiveList. */
  function Classify(next: Tick, now: Tick, command: Tick, period: Tick): Verdict {
    if next <= now then
      if Minus(now, command) >= period then ProcessNow else IntoOverflow
    else if now < command && next >= command then ProcessNow
    else IntoCurrent
  }

  /** For a command issued at C and looked at less than one wrap later, at N: the timer is
      processed at once iff C + period has been reached; otherwise it goes to the list of the
      epoch its expiry is in. */
  lemma ClassifyExact(command: nat, now: nat, period: Tick)
    requires command <= now < command + WRAP && period > 0
    ensures Classify(Low(command + period), Low(now), Low(command), period)
            == if command + period <= now then ProcessNow
               else if Epoch(command + period) == Epoch(now) then IntoCurrent
               else IntoOverflow
    ensures command + period > now ==> Epoch(now) <= Epoch(command + period) <= Epoch(now) + 1
  {
    Split(command);
    Split(now);
    Split(command + period);
    MinusIsDistance(command, now);
  }

  /** A period set at N has its reference at N: the ignored result is always "inserted". */
  lemma ChangePeriodInserts(now: nat, period: Tick)
    requires period > 0
    ensures Classify(Low(now + period), Low(now), Low(now), period) != ProcessNow
  {
    ClassifyExact(now, now, period);
  }

  // What is due.

  /** The i-th instant a timer started at `start` is due. */
  function Instant(start: nat, period: Tick, i: nat): nat {
    if i == 0 then start else Instant(start, period, i - 1) + period
  }

  /** The first due instant that has had no callback. */
  function Due(d: Daemon, id: Id): nat
    requires id in d.timers && id in d.plans
  {
    Instant(d.plans[id].start, d.timers[id].period, |d.plans[id].calls| + 1)
  }

  /** The next `n` callbacks of a schedule, made at clock value `at`. */
  function Fire(plan: Schedule, period: Tick, n: nat, at: nat): Schedule
    decreases n
  {
    if n == 0 then plan
    else Fire(plan.(calls := plan.calls + [Call(Instant(plan.start, period, |plan.calls| + 1), at)]), period, n - 1, at)
  }

  /** How many due instants lie between `expired` and `now`, not counting the former. */
  function Backlog(expired: nat, now: nat, period: Tick): nat
    requires expired <= now && period > 0
    decreases now - expired
  {
    if expired + period > now then 0 else 1 + Backlog(expired + period, now, period)
  }

  lemma {:induction false} BacklogIsFloor(expired: nat, now: nat, period: Tick)
    requires expired <= now && period > 0
    ensures Backlog(expired, now, period) == (now - expired) / period
    decreases now - expired
  {
    if expired + period > now {
      Quotient(now - expired, period, 0);
    } else {
      var k := Backlog(expired + period, now, period);
      BacklogIsFloor(expired + period, now, period);
      var rest := now - expired - period;
      assert rest == k * period + rest % period;
      assert (k + 1) * period == k * period + period;
      assert (k + 2) * period == (k + 1) * period + period;
      Quotient(now - expired, period, k + 1);
    }
  }

  lemma Quotient(a: nat, b: nat, n: nat)
    requires b > 0 && n * b <= a < (n + 1) * b
    ensures a / b == n
  {
    var q := a / b;
    assert a == q * b + a % b;
    if q < n { TimesGrows(q + 1, n, b); }
    if q > n { TimesGrows(n + 1, q, b); }
  }

  lemma TimesGrows(a: nat, b: nat, c: nat)
    requires a <= b
    ensures a * c <= b * c
  {
  }

  /** vListInsert: behind all items with values up to that of `id`. */
  function Inserted(timers: map<Id, Timer>, list: seq<Id>, id: Id): (r: seq<Id>)
    requires id in timers && forall u :: u in list ==> u in timers
    ensures forall u :: u in r <==> u in list || u == id
  {
    if list == [] || timers[list[0]].value > timers[id].value then [id] + list
    else
      assert list == [list[0]] + list[1..];
      [list[0]] + Inserted(timers, list[1..], id)
  }

  predicate WellFormed(d: Daemon) {
    && d.plans.Keys == d.timers.Keys
    && (forall u :: u in d.current ==> u in d.timers)
    && (forall u :: u in d.overflow ==> u in d.timers)
    && (forall u :: u in d.timers ==> d.timers[u].period > 0)
  }

  /** Put a timer that is on no list on the one for the epoch of `due`, as seen from clock value `now`. */
  function Place(d: Daemon, id: Id, due: nat, now: nat): Daemon
    requires WellFormed(d) && id in d.timers
  {
    var timers := d.timers[id := d.timers[id].(value := Low(due))];
    if Epoch(due) == Epoch(now) then d.(timers := timers, current := Inserted(timers, d.current, id))
    else d.(timers := timers, overflow := Inserted(timers, d.overflow, id))
  }

  /** Arm a timer for its next due instant. */
  function Arm(d: Daemon, id: Id, now: nat): Daemon
    requires WellFormed(d) && id in d.timers
  {
    Place(d, id, Due(d, id), now)
  }

  /** An expired timer that is on no list any more: the callbacks due up to `now` are made; an
      auto-reload timer is armed again, a one-shot timer becomes inactive. */
  function Expire(d: Daemon, id: Id, now: nat): Daemon
    requires WellFormed(d) && id in d.timers && Due(d, id) <= now
  {
    var timer := d.timers[id];
    var n := if timer.autoReload then Backlog(Due(d, id), now, timer.period) + 1 else 1;
    var fired := d.(plans := d.plans[id := Fire(d.plans[id], timer.period, n, now)]);
    if timer.autoReload then Arm(fired, id, now)
    else fired.(timers := d.timers[id := timer.(value := Low(Due(d, id)), active := false)])
  }

  /** prvProcessExpiredTimer on the head of the current list. */
  function ProcessHead(d: Daemon, now: nat): Daemon
    requires WellFormed(d) && d.current != [] && Due(d, d.current[0]) <= now
  {
    Expire(d.(current := d.current[1..]), d.current[0], now)
  }

  lemma {:induction false} InstantIs(start: nat, period: Tick, i: nat)
    ensures Instant(start, period, i) == start + i * period
  {
    if i > 0 {
      InstantIs(start, period, i - 1);
      assert i * period == (i - 1) * period + period;
    }
  }

  lemma {:induction false} InstantsGrow(start: nat, period: Tick, i: nat, j: nat)
    requires i <= j
    ensures Instant(start, period, i) <= Instant(start, period, j)
    decreases j
  {
    if i < j { InstantsGrow(start, period, i, j - 1); }
  }

  /** Firing adds exactly the next `n` due instants to the callbacks made. */
  lemma {:induction false} FireAddsUp(plan: Schedule, period: Tick, n: nat, at: nat)
    ensures var f := Fire(plan, period, n, at);
            && f.start == plan.start && |f.calls| == |plan.calls| + n
            && f.calls[..|plan.calls|] == plan.calls
            && forall i :: |plan.calls| <= i < |f.calls| ==> f.calls[i] == Call(Instant(plan.start, period, i + 1), at)
    decreases n
  {
    if n > 0 {
      var one := plan.(calls := plan.calls + [Call(Instant(plan.start, period, |plan.calls| + 1), at)]);
      var f := Fire(one, period, n - 1, at);
      FireAddsUp(one, period, n - 1, at);
      assert f.calls[..|plan.calls|] == f.calls[..|one.calls|][..|plan.calls|];
      assert f.calls[|plan.calls|] == f.calls[..|one.calls|][|plan.calls|];
    }
  }

  lemma {:induction false} FireOneMore(plan: Schedule, period: Tick, n: nat, at: nat)
    ensures Fire(plan, period, n + 1, at) == Fire(Fire(plan, period, n, at), period, 1, at)
    decreases n
  {
    if n > 0 {
      FireOneMore(plan.(calls := plan.calls + [Call(Instant(plan.start, period, |plan.calls| + 1), at)]), period, n - 1, at);
    }
  }

  /** The backlog ends with the last due instant up to `now`. */
  lemma {:induction false} BacklogExact(start: nat, made: nat, period: Tick, now: nat)
    requires period > 0 && Instant(start, period, made + 1) <= now
    ensures var n := Backlog(Instant(start, period, made + 1), now, period) + 1;
            Instant(start, period, made + n) <= now < Instant(start, period, made + n + 1)
    decreases now - Instant(start, period, made + 1)
  {
    if Instant(start, period, made + 2) <= now { BacklogExact(start, made + 1, period, now); }
  }
}
