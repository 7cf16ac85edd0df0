/** Mutexes with priority inheritance, as atomic steps of any number of tasks on one core:
    xQueueSemaphoreTake and the giving half of xQueueGenericSend on a mutex, together with the
    scheduler choosing whom to run.  A block decision runs with the scheduler suspended and no
    interrupt touches a mutex, so it is one step. */
module Mutexes {
  import opened Sequences
  import opened Priorities

  type Task = nat

  datatype Holder = Nobody | HeldBy(t: Task)

  /** `claims` is history: the callers whose block raised the present holder, or found it raised
      or level with them, and who are still in their call. */
  datatype Mutex = Mutex(holder: Holder, count: nat, waiters: seq<Task>, claims: set<Task>)

  /** `inherited` is xInheritanceOccurred, `expired` says that the block time is used up. */
  datatype Phase =
    | Free
    | Try(m: nat, inherited: bool, expired: bool)
    | Missed(m: nat, inherited: bool)
    | Waiting(m: nat, inherited: bool)
    | Expired(m: nat, inherited: bool)
    | GaveUp(m: nat)

  datatype State = State(
    tcb: map<Task, Tcb>,
    phase: map<Task, Phase>,
    mutexes: seq<Mutex>,
    ready: set<Task>,
    current: Task,
    mustYield: bool)

  datatype Action =
    | Take(m: nat, block: bool)  // first attempt of a call
    | Retry
    | Decide(expired: bool)      // suspend the scheduler, look again, block or not
    | LastLook
    | GiveUp
    | Give(m: nat)
    | TimeOut(t: Task)
    | Sleep                      // the running task blocks on something else
    | Wake(t: Task)
    | Switch(t: Task)
    | SetPriority(t: Task, p: Level)

  predicate WellFormed(s: State) {
    && s.current in s.tcb && s.phase.Keys == s.tcb.Keys && s.ready <= s.tcb.Keys
    && (forall t :: t in s.tcb && !s.phase[t].Free? ==> s.phase[t].m < |s.mutexes|)
    && (forall i :: 0 <= i < |s.mutexes| ==>
          && (s.mutexes[i].holder.HeldBy? ==> s.mutexes[i].holder.t in s.tcb)
          && forall w :: w in s.mutexes[i].waiters ==> w in s.tcb)
  }

  function PriorityOf(s: State, t: Task): Level
    requires t in s.tcb
  {
    s.tcb[t].priority
  }

  predicate Enabled(s: State, a: Action)
    requires WellFormed(s)
  {
    var p := s.phase[s.current];
    match a
    case TimeOut(t) => t in s.tcb && s.phase[t].Waiting?
    case Wake(t) => t in s.tcb && t !in s.ready && s.phase[t].Free?
    case Switch(t) => t in s.ready && forall u :: u in s.ready ==> PriorityOf(s, t) >= PriorityOf(s, u)
    case Take(m, _) => !s.mustYield && p.Free? && m < |s.mutexes| && s.mutexes[m].holder != HeldBy(s.current)
    case Retry => !s.mustYield && p.Try?
    case Decide(_) => !s.mustYield && p.Missed?
    case LastLook => !s.mustYield && p.Expired?
    case GiveUp => !s.mustYield && p.GaveUp?
    case Give(m) =>
      && !s.mustYield && p.Free? && m < |s.mutexes| && s.mutexes[m].holder == HeldBy(s.current)
      && s.tcb[s.current].mutexesHeld > 0
    case Sleep => !s.mustYield && p.Free?
    case SetPriority(t, _) => !s.mustYield && t in s.tcb
  }

  function Enter(s: State, p: Phase): State
    requires WellFormed(s)
  {
    s.(phase := s.phase[s.current := p])
  }

  /** The successful critical section of a take. */
  function TakeIt(s: State, m: nat): State
    requires WellFormed(s) && m < |s.mutexes| && s.mutexes[m].count > 0
  {
    var mutex := s.mutexes[m];
    Enter(s, Free).(
      tcb := s.tcb[s.current := Hold(s.tcb[s.current])],
      mutexes := s.mutexes[m := mutex.(holder := HeldBy(s.current), count := mutex.count - 1, claims := {})])
  }

  /** vListInsert on an event list: behind all items with values up to that of `t`. */
  function Inserted(tcb: map<Task, Tcb>, list: seq<Task>, t: Task): (r: seq<Task>)
    requires t in tcb && forall w :: w in list ==> w in tcb
    ensures forall w :: w in r <==> w in list || w == t
  {
    if list == [] || tcb[list[0]].eventValue > tcb[t].eventValue then [t] + list
    else
      assert list == [list[0]] + list[1..];
      [list[0]] + Inserted(tcb, list[1..], t)
  }

  /** Inherit, then join the waiting list and leave the ready list. */
  function BlockOn(s: State, m: nat): State
    requires WellFormed(s) && m < |s.mutexes|
  {
    var t, mutex := s.current, s.mutexes[m];
    var (raised, inherited) :=
      if mutex.holder.HeldBy? then
        var (h, r) := Inherit(s.tcb[mutex.holder.t], PriorityOf(s, t)); (s.tcb[mutex.holder.t := h], r)
      else (s.tcb, false);
    s.(tcb := raised,
        phase := s.phase[t := Waiting(m, inherited)],
        ready := s.ready - {t}, mustYield := true,
        mutexes := s.mutexes[m := mutex.(
          waiters := Inserted(raised, mutex.waiters, t),
          claims := if inherited then mutex.claims + {t} else mutex.claims - {t})])
  }

  /** prvGetHighestPriorityOfWaitToReceiveList, from the value of the head item. */
  function HighestWaiting(s: State, m: nat): int
    requires WellFormed(s) && m < |s.mutexes|
  {
    var waiters := s.mutexes[m].waiters;
    if waiters == [] then 0 else MAX_PRIORITIES - s.tcb[waiters[0]].eventValue
  }

  /** The timed-out caller takes its priority back from the holder. */
  function TakeBack(s: State, m: nat): State
    requires WellFormed(s) && m < |s.mutexes|
  {
    var mutex := s.mutexes[m];
    var highest := HighestWaiting(s, m);
    var tcb := if mutex.holder.HeldBy? && 0 <= highest < MAX_PRIORITIES then
                 s.tcb[mutex.holder.t := DisinheritAfterTimeout(s.tcb[mutex.holder.t], highest)]
               else s.tcb;
    Enter(s, Free).(tcb := tcb, mutexes := s.mutexes[m := mutex.(claims := mutex.claims - {s.current})])
  }

  function GiveIt(s: State, m: nat): State
    requires WellFormed(s) && m < |s.mutexes| && s.tcb[s.current].mutexesHeld > 0
  {
    var mutex := s.mutexes[m];
    var (giver, dropped) := Disinherit(s.tcb[s.current]);
    var given := s.(
      tcb := s.tcb[s.current := giver],
      mutexes := s.mutexes[m := Mutex(Nobody, mutex.count + 1, mutex.waiters[Min(1, |mutex.waiters|)..], {})]);
    if mutex.waiters == [] then given.(mustYield := dropped)
    else
      var w := mutex.waiters[0];
      given.(phase := s.phase[w := Try(m, WasInherited(s.phase[w]), false)],
             ready := s.ready + {w},
             mustYield := given.tcb[w].priority > giver.priority)
  }

  function WasInherited(p: Phase): bool { p.Waiting? && p.inherited }

  function Apply(s: State, a: Action): State
    requires WellFormed(s) && Enabled(s, a)
  {
    var t, p := s.current, s.phase[s.current];
    match a
    case Take(m, block) =>
      if s.mutexes[m].count > 0 then TakeIt(s, m) else if block then Enter(s, Missed(m, false)) else s
    case Retry =>
      if s.mutexes[p.m].count > 0 then TakeIt(s, p.m)
      else Enter(s, if p.expired then Free else Missed(p.m, p.inherited))
    case Decide(expired) =>
      if expired then Enter(s, Expired(p.m, p.inherited))
      else if s.mutexes[p.m].count == 0 then BlockOn(s, p.m)
      else Enter(s, Try(p.m, p.inherited, false))
    case LastLook =>
      Enter(s, if s.mutexes[p.m].count > 0 then Try(p.m, p.inherited, true)
               else if p.inherited then GaveUp(p.m) else Free)
    case GiveUp => TakeBack(s, p.m)
    case Give(m) => GiveIt(s, m)
    case TimeOut(u) =>
      var m := s.phase[u].m;
      s.(phase := s.phase[u := Try(m, s.phase[u].inherited, false)],
         ready := s.ready + {u},
         mutexes := s.mutexes[m := s.mutexes[m].(waiters := Without(s.mutexes[m].waiters, u))])
    case Sleep => s.(ready := s.ready - {t}, mustYield := true)
    case Wake(u) => s.(ready := s.ready + {u})
    case Switch(u) => s.(current := u, mustYield := false)
    case SetPriority(u, q) => s.(tcb := s.tcb[u := Priorities.SetPriority(s.tcb[u], q)])
  }

  // Accounting, for any number of mutexes.

  function HeldCount(mutexes: seq<Mutex>, t: Task): nat {
    if mutexes == [] then 0 else
      (if mutexes[0].holder == HeldBy(t) then 1 else 0) + HeldCount(mutexes[1..], t)
  }

  ghost predicate Accounts(s: State) {
    && WellFormed(s)
    && (forall i :: 0 <= i < |s.mutexes| ==> s.mutexes[i].count == if s.mutexes[i].holder == Nobody then 1 else 0)
    && (forall t :: t in s.tcb ==> Books(s.tcb, s.mutexes, t))
    && (forall t :: t in s.tcb && !s.phase[t].Free? ==> s.mutexes[s.phase[t].m].holder != HeldBy(t))
  }

  lemma {:induction false} HeldCountUpdate(mutexes: seq<Mutex>, m: nat, x: Mutex, t: Task)
    requires m < |mutexes|
    ensures HeldCount(mutexes[m := x], t)
            == HeldCount(mutexes, t) - (if mutexes[m].holder == HeldBy(t) then 1 else 0)
               + (if x.holder == HeldBy(t) then 1 else 0)
    ensures mutexes[m].holder == HeldBy(t) ==> HeldCount(mutexes, t) > 0
  {
    if m == 0 {
      assert mutexes[m := x][1..] == mutexes[1..];
    } else {
      HeldCountUpdate(mutexes[1..], m - 1, x, t);
      assert mutexes[m := x][1..] == mutexes[1..][m - 1 := x];
    }
  }

  ghost predicate Books(tcb: map<Task, Tcb>, mutexes: seq<Mutex>, t: Task)
    requires t in tcb
  {
    Sound(tcb[t]) && tcb[t].mutexesHeld == HeldCount(mutexes, t)
  }

  lemma TakeBooks(s: State, m: nat, t: Task)
    requires Accounts(s) && m < |s.mutexes| && t in s.tcb && s.mutexes[m].count > 0
    ensures var n := TakeIt(s, m); t in n.tcb && Books(n.tcb, n.mutexes, t)
  {
    hide HeldCount, Sound;
    assert Books(s.tcb, s.mutexes, t);
    HeldCountUpdate(s.mutexes, m, TakeIt(s, m).mutexes[m], t);
    PrioritiesStaySound(s.tcb[t], 0);
  }

  lemma TakeAccounts(s: State, m: nat)
    requires Accounts(s) && m < |s.mutexes| && s.mutexes[m].count > 0
    ensures Accounts(TakeIt(s, m))
  {
    hide Books;
    var n := TakeIt(s, m);
    forall t | t in n.tcb ensures Books(n.tcb, n.mutexes, t) { TakeBooks(s, m, t); }
  }

  lemma BlockBooks(s: State, m: nat, t: Task)
    requires Accounts(s) && m < |s.mutexes| && t in s.tcb && s.mutexes[m].count == 0
      && s.mutexes[m].holder != HeldBy(s.current)
    ensures var n := BlockOn(s, m); t in n.tcb && Books(n.tcb, n.mutexes, t)
  {
    hide HeldCount, Sound, Inserted;
    assert Books(s.tcb, s.mutexes, t);
    HeldCountUpdate(s.mutexes, m, BlockOn(s, m).mutexes[m], t);
    PrioritiesStaySound(s.tcb[t], PriorityOf(s, s.current));
  }

  lemma BlockAccounts(s: State, m: nat)
    requires Accounts(s) && m < |s.mutexes| && s.mutexes[m].count == 0
      && s.mutexes[m].holder != HeldBy(s.current)
    ensures Accounts(BlockOn(s, m))
  {
    hide Books, Inserted;
    var n := BlockOn(s, m);
    forall t | t in n.tcb ensures Books(n.tcb, n.mutexes, t) { BlockBooks(s, m, t); }
  }

  lemma TakeBackBooks(s: State, m: nat, t: Task)
    requires Accounts(s) && m < |s.mutexes| && t in s.tcb
    ensures var n := TakeBack(s, m); t in n.tcb && Books(n.tcb, n.mutexes, t)
  {
    hide HeldCount, Sound;
    assert Books(s.tcb, s.mutexes, t);
    HeldCountUpdate(s.mutexes, m, TakeBack(s, m).mutexes[m], t);
    PrioritiesStaySound(s.tcb[t], if 0 <= HighestWaiting(s, m) < MAX_PRIORITIES then HighestWaiting(s, m) else 0);
  }

  lemma TakeBackAccounts(s: State, m: nat)
    requires Accounts(s) && m < |s.mutexes|
    ensures Accounts(TakeBack(s, m))
  {
    hide Books, DisinheritAfterTimeout;
    var n := TakeBack(s, m);
    forall t | t in n.tcb ensures Books(n.tcb, n.mutexes, t) { TakeBackBooks(s, m, t); }
  }

  lemma GiveBooks(s: State, m: nat, t: Task)
    requires Accounts(s) && m < |s.mutexes| && s.mutexes[m].holder == HeldBy(s.current)
    requires s.tcb[s.current].mutexesHeld > 0 && t in s.tcb
    ensures var n := GiveIt(s, m); t in n.tcb && Books(n.tcb, n.mutexes, t)
  {
    hide HeldCount, Sound;
    assert Books(s.tcb, s.mutexes, t);
    HeldCountUpdate(s.mutexes, m, GiveIt(s, m).mutexes[m], t);
    PrioritiesStaySound(s.tcb[t], 0);
  }

  lemma GiveAccounts(s: State, m: nat)
    requires Accounts(s) && m < |s.mutexes| && s.mutexes[m].holder == HeldBy(s.current)
    requires s.tcb[s.current].mutexesHeld > 0 && s.phase[s.current].Free?
    ensures Accounts(GiveIt(s, m))
  {
    hide Books, Disinherit;
    var n := GiveIt(s, m);
    forall t | t in n.tcb ensures Books(n.tcb, n.mutexes, t) { GiveBooks(s, m, t); }
  }

  lemma TimeOutAccounts(s: State, u: Task)
    requires Accounts(s) && Enabled(s, TimeOut(u))
    ensures Accounts(Apply(s, TimeOut(u)))
  {
    var n := Apply(s, TimeOut(u));
    forall t | t in n.tcb ensures Books(n.tcb, n.mutexes, t) {
      HeldCountUpdate(s.mutexes, s.phase[u].m, n.mutexes[s.phase[u].m], t);
      PrioritiesStaySound(s.tcb[t], 0);
    }
  }

  lemma SetPriorityAccounts(s: State, u: Task, q: Level)
    requires Accounts(s) && Enabled(s, SetPriority(u, q))
    ensures Accounts(Apply(s, SetPriority(u, q)))
  {
    var n := Apply(s, SetPriority(u, q));
    forall t | t in n.tcb ensures Books(n.tcb, n.mutexes, t) {
      assert Books(s.tcb, s.mutexes, t);
      PrioritiesStaySound(s.tcb[t], q);
    }
  }

  lemma EnterAccounts(s: State, p: Phase)
    requires Accounts(s)
    requires !p.Free? ==> p.m < |s.mutexes| && s.mutexes[p.m].holder != HeldBy(s.current)
    ensures Accounts(Enter(s, p))
  {
    var n := Enter(s, p);
    forall t | t in n.tcb ensures Books(n.tcb, n.mutexes, t) { assert Books(s.tcb, s.mutexes, t); }
  }

  lemma IdleAccounts(s: State, a: Action)
    requires Accounts(s) && Enabled(s, a) && (a.Sleep? || a.Wake? || a.Switch?)
    ensures Accounts(Apply(s, a))
  {
    var n := Apply(s, a);
    forall t | t in n.tcb ensures Books(n.tcb, n.mutexes, t) { assert Books(s.tcb, s.mutexes, t); }
  }

  lemma StepAccounts(s: State, a: Action)
    requires Accounts(s) && Enabled(s, a)
    ensures Accounts(Apply(s, a))
  {
    var p := s.phase[s.current];
    match a
    case Take(m, block) =>
      if s.mutexes[m].count > 0 { TakeAccounts(s, m); } else if block { EnterAccounts(s, Missed(m, false)); }
    case Retry =>
      if s.mutexes[p.m].count > 0 { TakeAccounts(s, p.m); }
      else { EnterAccounts(s, if p.expired then Free else Missed(p.m, p.inherited)); }
    case Decide(expired) =>
      if expired { EnterAccounts(s, Expired(p.m, p.inherited)); }
      else if s.mutexes[p.m].count == 0 { BlockAccounts(s, p.m); }
      else { EnterAccounts(s, Try(p.m, p.inherited, false)); }
    case LastLook =>
      EnterAccounts(s, if s.mutexes[p.m].count > 0 then Try(p.m, p.inherited, true)
                       else if p.inherited then GaveUp(p.m) else Free);
    case GiveUp => TakeBackAccounts(s, p.m);
    case Give(m) => GiveAccounts(s, m);
    case TimeOut(u) => TimeOutAccounts(s, u);
    case SetPriority(u, q) => SetPriorityAccounts(s, u, q);
    case _ => IdleAccounts(s, a);
  }

  // Runs.

  ghost predicate Possible(s: State, run: seq<Action>)
    decreases |run|
  {
    && WellFormed(s)
    && (run == [] || (Enabled(s, run[0]) && Possible(Apply(s, run[0]), run[1..])))
  }

  ghost function After(s: State, run: seq<Action>): State
    requires Possible(s, run)
    decreases |run|
  {
    if run == [] then s else After(Apply(s, run[0]), run[1..])
  }

  ghost predicate Init(s: State) {
    && WellFormed(s) && s.current in s.ready && !s.mustYield
    && (forall t :: t in s.tcb ==>
          s.phase[t].Free? && s.tcb[t] == Tcb(s.tcb[t].base, s.tcb[t].base, 0, EventValue(s.tcb[t].base)))
    && (forall i :: 0 <= i < |s.mutexes| ==> s.mutexes[i] == Mutex(Nobody, 1, [], {}))
  }

  lemma {:induction false} NobodyHolds(mutexes: seq<Mutex>, t: Task)
    requires forall i :: 0 <= i < |mutexes| ==> mutexes[i].holder == Nobody
    ensures HeldCount(mutexes, t) == 0
  {
    if mutexes != [] { NobodyHolds(mutexes[1..], t); }
  }

  lemma InitAccounts(s: State)
    requires Init(s)
    ensures Accounts(s)
  {
    forall t | t in s.tcb ensures Books(s.tcb, s.mutexes, t) { NobodyHolds(s.mutexes, t); }
  }

  lemma {:induction false} RunAccounts(s: State, run: seq<Action>)
    requires Accounts(s) && Possible(s, run)
    ensures Accounts(After(s, run))
    decreases |run|
  {
    if run != [] {
      StepAccounts(s, run[0]);
      RunAccounts(Apply(s, run[0]), run[1..]);
    }
  }

  /** In every reachable state, with any number of mutexes, tasks and priority changes: a mutex
      is free iff nobody holds it iff its count is 1; every task's uxMutexesHeld is the number
      of mutexes naming it; it runs at its base priority or above, and above only while holding.
      So the uxMutexesHeld assertions hold whenever only holders give. */
  lemma MutexAccounting(s: State, run: seq<Action>)
    requires Init(s) && Possible(s, run)
    ensures var n := After(s, run);
            && (forall i :: 0 <= i < |n.mutexes| ==> n.mutexes[i].count == if n.mutexes[i].holder == Nobody then 1 else 0)
            && (forall t :: t in n.tcb ==>
                  && n.tcb[t].mutexesHeld == HeldCount(n.mutexes, t)
                  && n.tcb[t].priority >= n.tcb[t].base
                  && (n.tcb[t].mutexesHeld == 0 ==> n.tcb[t].priority == n.tcb[t].base))
            && (forall i :: 0 <= i < |n.mutexes| && n.mutexes[i].holder.HeldBy? ==>
                  n.mutexes[i].holder.t in n.tcb && n.tcb[n.mutexes[i].holder.t].mutexesHeld > 0)
  {
    InitAccounts(s);
    RunAccounts(s, run);
    var n := After(s, run);
    assert forall t :: t in n.tcb ==> Books(n.tcb, n.mutexes, t);
    forall i | 0 <= i < |n.mutexes| && n.mutexes[i].holder.HeldBy?
      ensures n.tcb[n.mutexes[i].holder.t].mutexesHeld > 0
    {
      HeldCountUpdate(n.mutexes, i, n.mutexes[i], n.mutexes[i].holder.t);
      assert Books(n.tcb, n.mutexes, n.mutexes[i].holder.t);
    }
  }
}
