/** xTaskCheckForTimeOut and xTaskDelayUntil: what the wrapped comparisons mean on the clock. */
module Deadlines {
  import opened Ticks

  /** A TimeOut_t together with the remaining block time. */
  datatype Deadline = Deadline(overflows: Tick, entered: Tick, wait: Tick)

  /** vTaskInternalSetTimeOutState at clock value `t`; xNumOfOverflows wraps like the tick count. */
  function Enter(t: nat, wait: Tick): Deadline {
    Deadline(Low(Epoch(t)), Low(t), wait)
  }

  datatype Verdict = Expired | Pending(rest: Deadline)

  /** xTaskCheckForTimeOut, branch by branch. */
  function Check(d: Deadline, overflows: Tick, now: Tick): Verdict {
    var elapsed := Minus(now, d.entered);
    if d.wait == MAX_DELAY then Pending(d)
    else if overflows != d.overflows && now >= d.entered then Expired
    else if elapsed < d.wait then Pending(Deadline(overflows, now, d.wait - elapsed))
    else Expired
  }

  class TimeOut {
    var overflows: Tick
    var entered: Tick

    ghost function With(wait: Tick): Deadline
      reads this
    {
      Deadline(overflows, entered, wait)
    }

    method SetState(numOfOverflows: Tick, tickCount: Tick)
      modifies this
      ensures overflows == numOfOverflows && entered == tickCount
    {
      overflows, entered := numOfOverflows, tickCount;
    }

    method CheckForTimeOut(wait: Tick, numOfOverflows: Tick, tickCount: Tick) returns (expired: bool, remaining: Tick)
      modifies this
      ensures expired <==> Check(old(With(wait)), numOfOverflows, tickCount).Expired?
      ensures expired ==> remaining == 0 && unchanged(this)
      ensures !expired ==> Check(old(With(wait)), numOfOverflows, tickCount) == Pending(With(remaining))
    {
      var elapsed := Minus(tickCount, entered);
      if wait == MAX_DELAY {
        expired, remaining := false, wait;
      } else if numOfOverflows != overflows && tickCount >= entered {
        expired, remaining := true, 0;
      } else if elapsed < wait {
        remaining := wait - elapsed;
        SetState(numOfOverflows, tickCount);
        expired := false;
      } else {
        expired, remaining := true, 0;
      }
    }
  }

  function CheckAt(d: Deadline, t: nat): Verdict {
    Check(d, Low(Epoch(t)), Low(t))
  }

  /** No timeout is reported before the deadline, however long the caller was away. */
  lemma NeverEarly(s: nat, t: nat, wait: Tick)
    requires s <= t && CheckAt(Enter(s, wait), t).Expired?
    ensures t >= s + wait && wait != MAX_DELAY
  {
    Split(s);
    Split(t);
    if t < s + WRAP { MinusIsDistance(s, t); }
  }

  /** The state in which an overdue deadline is taken for a fresh one: the clock went round
      at least once since the last look, and the counters do not show it. */
  predicate Fooled(s: nat, t: nat, wait: Tick)
    requires s <= t
  {
    && t - s >= WRAP && wait != MAX_DELAY
    && (Low(t) < Low(s) || Low(Epoch(t)) == Low(Epoch(s)))
    && Minus(Low(t), Low(s)) < wait
  }

  /** Otherwise, and only otherwise, the verdict is right and the remaining time keeps the deadline. */
  lemma ExactUnlessFooled(s: nat, t: nat, wait: Tick)
    requires s <= t && wait != MAX_DELAY
    ensures CheckAt(Enter(s, wait), t)
            == (if t >= s + wait then Expired else Pending(Enter(t, s + wait - t)))
            <==> !Fooled(s, t, wait)
  {
    Split(s);
    Split(t);
    if t < s + WRAP { MinusIsDistance(s, t); SameEpochOrder(s, t); }
  }

  /** It takes no more than a deadline just past a wrap and a look more than a whole wrap late:
      20 ticks from 5 before the wrap, looked at 3 after the next one, are said to have 12 left. */
  lemma FooledExample(s: nat, t: nat)
    requires s == WRAP - 5 && t == 2 * WRAP + 3
    ensures Fooled(s, t, 20) && t > s + 20
    ensures CheckAt(Enter(s, 20), t) == Pending(Enter(t, 12))
  {
    Join(0, WRAP - 5);
    Join(2, 3);
  }

  lemma SameEpochOrder(s: nat, t: nat)
    requires s <= t < s + WRAP
    ensures Low(Epoch(t)) != Low(Epoch(s)) ==> Low(t) < Low(s)
  {
  }

  /** One wrap between two looks cannot fool it. */
  lemma OneWrapIsSafe(s: nat, t: nat, wait: Tick)
    requires s <= t && Epoch(t) <= Epoch(s) + 1
    ensures !Fooled(s, t, wait)
  {
    Split(s);
    Split(t);
    if t - s >= WRAP { assert Epoch(t) == Epoch(s) + 1; EpochsDiffer(Epoch(s)); }
  }

  lemma EpochsDiffer(e: nat)
    ensures Low(e + 1) != Low(e)
  {
  }

  /** A blocked call looks at the clock again each time it is woken. */
  ghost predicate LooksOften(s: nat, looks: seq<nat>)
    decreases |looks|
  {
    looks == [] || (s <= looks[0] && Epoch(looks[0]) <= Epoch(s) + 1 && LooksOften(looks[0], looks[1..]))
  }

  /** How many looks return "not yet" before the first timeout. */
  function LooksBefore(d: Deadline, looks: seq<nat>): nat
    decreases |looks|
  {
    if looks == [] then 0 else
      match CheckAt(d, looks[0])
      case Expired => 0
      case Pending(rest) => 1 + LooksBefore(rest, looks[1..])
  }

  predicate Forward(s: nat, looks: seq<nat>)
    decreases |looks|
  {
    looks == [] || (s <= looks[0] && Forward(looks[0], looks[1..]))
  }

  /** However rarely and irregularly the caller looks, no look before start + wait times it out. */
  lemma {:induction false} NeverEarlyOverLooks(s: nat, wait: Tick, looks: seq<nat>)
    requires Forward(s, looks)
    ensures var k := LooksBefore(Enter(s, wait), looks);
            k < |looks| ==> looks[k] >= s + wait
    decreases |looks|
  {
    if wait == MAX_DELAY {
      MaxDelayNeverExpires(Enter(s, wait), looks);
    } else if looks != [] {
      var t := looks[0];
      match CheckAt(Enter(s, wait), t) {
        case Expired => NeverEarly(s, t, wait);
        case Pending(rest) =>
          ElapsedAtMost(s, t);
          NeverEarlyOverLooks(t, rest.wait, looks[1..]);
      }
    }
  }

  lemma ElapsedAtMost(s: nat, t: nat)
    requires s <= t
    ensures Minus(Low(t), Low(s)) <= t - s
  {
    if t < s + WRAP { MinusIsDistance(s, t); }
  }

  function LooksBeforeDeadline(deadline: nat, looks: seq<nat>): nat
    decreases |looks|
  {
    if looks == [] || looks[0] >= deadline then 0 else 1 + LooksBeforeDeadline(deadline, looks[1..])
  }

  /** Over any number of wake-ups the call times out at its first look at or after start + wait. */
  lemma {:induction false} DeadlineConserved(s: nat, wait: Tick, looks: seq<nat>)
    requires LooksOften(s, looks) && wait != MAX_DELAY
    ensures LooksBefore(Enter(s, wait), looks) == LooksBeforeDeadline(s + wait, looks)
    decreases |looks|
  {
    if looks != [] {
      OneWrapIsSafe(s, looks[0], wait);
      ExactUnlessFooled(s, looks[0], wait);
      if looks[0] < s + wait {
        DeadlineConserved(looks[0], s + wait - looks[0], looks[1..]);
      }
    }
  }

  lemma {:induction false} MaxDelayNeverExpires(d: Deadline, looks: seq<nat>)
    requires d.wait == MAX_DELAY
    ensures LooksBefore(d, looks) == |looks|
    decreases |looks|
  {
    if looks != [] { MaxDelayNeverExpires(d, looks[1..]); }
  }

  // xTaskDelayUntil.

  datatype Sleep = Sleep(delay: bool, wake: Tick, wait: Tick)

  function DelayUntil(previous: Tick, increment: Tick, now: Tick): Sleep {
    var wake := Plus(previous, increment);
    var delay := if now < previous then wake < previous && wake > now else wake < previous || wake > now;
    Sleep(delay, wake, Minus(wake, now))
  }

  method TaskDelayUntil(previous: Tick, increment: Tick, now: Tick) returns (stored: Tick, shouldDelay: bool, wait: Tick)
    requires increment > 0
    ensures Sleep(shouldDelay, stored, wait) == DelayUntil(previous, increment, now)
  {
    var timeToWake := Plus(previous, increment);
    shouldDelay := false;
    if now < previous {
      if timeToWake < previous && timeToWake > now {
        shouldDelay := true;
      }
    } else {
      if timeToWake < previous || timeToWake > now {
        shouldDelay := true;
      }
    }
    stored := timeToWake;
    wait := Minus(timeToWake, now);
  }

  /** Called less than one wrap after the previous wake time, it sleeps iff the next one is
      still ahead, and then up to exactly that instant. */
  lemma DelayUntilExact(previous: nat, increment: Tick, now: nat)
    requires increment > 0 && previous <= now < previous + WRAP
    ensures var s := DelayUntil(Low(previous), increment, Low(now));
            && s.wake == Low(previous + increment)
            && (s.delay <==> previous + increment > now)
            && (s.delay ==> s.wait > 0 && now + s.wait == previous + increment)
  {
    PlusIsLow(previous, increment);
    Split(previous);
    Split(now);
    Split(previous + increment);
    if previous + increment > now { MinusIsDistance(now, previous + increment); }
  }

  /** The stored wake times of successive calls made at clock values `calls`. */
  function WakeTimes(previous: Tick, increment: Tick, calls: seq<nat>): seq<Sleep>
    decreases |calls|
  {
    if calls == [] then [] else
      var s := DelayUntil(previous, increment, Low(calls[0]));
      [s] + WakeTimes(s.wake, increment, calls[1..])
  }

  /** No drift: the k-th call aims at start + k * increment whatever the earlier calls met. */
  lemma {:induction false} NoDrift(previous: nat, increment: Tick, calls: seq<nat>)
    requires increment > 0
    requires forall k :: 0 <= k < |calls| ==> previous + k * increment <= calls[k] < previous + k * increment + WRAP
    ensures var s := WakeTimes(Low(previous), increment, calls);
            && |s| == |calls|
            && forall k :: 0 <= k < |calls| ==>
               && s[k].wake == Low(previous + (k + 1) * increment)
               && (s[k].delay <==> previous + (k + 1) * increment > calls[k])
               && (s[k].delay ==> calls[k] + s[k].wait == previous + (k + 1) * increment)
    decreases |calls|
  {
    if calls != [] {
      assert previous + 0 * increment <= calls[0];
      DelayUntilExact(previous, increment, calls[0]);
      var rest, next := calls[1..], previous + increment;
      forall k | 0 <= k < |rest|
        ensures next + k * increment <= rest[k] < next + k * increment + WRAP
      {
        Factor(previous, increment, k);
      }
      NoDrift(next, increment, rest);
      var s := WakeTimes(Low(previous), increment, calls);
      forall k | 0 <= k < |calls|
        ensures s[k].wake == Low(previous + (k + 1) * increment)
        ensures s[k].delay <==> previous + (k + 1) * increment > calls[k]
        ensures s[k].delay ==> calls[k] + s[k].wait == previous + (k + 1) * increment
      {
        if k > 0 {
          Factor(previous, increment, k);
          assert s[k] == WakeTimes(Low(next), increment, rest)[k - 1];
        }
      }
    }
  }

  lemma Factor(previous: nat, increment: nat, k: nat)
    ensures previous + (k + 1) * increment == previous + increment + k * increment
  {
  }
}
