/** Bounded priority inversion on one mutex: the holder runs at least at the priority of every
    task it keeps waiting, and no higher than its callers make it. */
module Inversion {
  import opened Sequences
  import opened Priorities
  import opened Mutexes

  /** One mutex, and nobody changes base priorities. */
  predicate Single(s: State) { |s.mutexes| == 1 }

  function TheMutex(s: State): Mutex
    requires Single(s)
  {
    s.mutexes[0]
  }

  predicate InCall(p: Phase) { !p.Free? }

  /** Event list items carry the priorities, so the list is sorted by descending priority. */
  ghost predicate Sorted(s: State)
    requires WellFormed(s) && Single(s)
  {
    && (forall t :: t in s.tcb ==> s.tcb[t].eventValue == EventValue(s.tcb[t].priority))
    && Descending(s.tcb, TheMutex(s).waiters)
  }

  /** Every task once, the most urgent first. */
  ghost predicate Descending(tcb: map<Task, Tcb>, list: seq<Task>)
    requires forall w :: w in list ==> w in tcb
  {
    list == [] ||
    (list[0] !in list[1..] && AtLeast(tcb, tcb[list[0]].priority, list[1..]) && Descending(tcb, list[1..]))
  }

  predicate AtLeast(tcb: map<Task, Tcb>, p: int, list: seq<Task>)
    requires forall w :: w in list ==> w in tcb
  {
    forall w :: w in list ==> p >= tcb[w].priority
  }

  /** Blocked tasks are on the list and not ready; the others inside a call are ready. */
  ghost predicate Placed(s: State)
    requires WellFormed(s) && Single(s)
  {
    && (forall w :: w in TheMutex(s).waiters ==> s.phase[w].Waiting?)
    && (forall t :: t in s.tcb && InCall(s.phase[t]) ==> (s.phase[t].Waiting? <==> t !in s.ready))
    && (s.mustYield || s.current in s.ready)
  }

  /** A claimant is in its call with xInheritanceOccurred set, and not past its last look. */
  predicate MayClaim(p: Phase) {
    match p
    case Free => false
    case Try(_, inherited, expired) => inherited && !expired
    case GaveUp(_) => true
    case _ => p.inherited
  }

  predicate AtLeastWaiters(s: State, p: int)
    requires WellFormed(s) && Single(s)
  {
    AtLeast(s.tcb, p, TheMutex(s).waiters)
  }

  /** A woken task that has not retried yet, at least as urgent as everyone still waiting. */
  predicate Heir(s: State, t: Task)
    requires WellFormed(s) && Single(s)
  {
    t in s.ready && s.phase[t].Try? && AtLeastWaiters(s, PriorityOf(s, t))
  }

  ghost predicate HeldWell(s: State, h: Task)
    requires WellFormed(s) && Single(s) && h in s.tcb
  {
    var m := TheMutex(s);
    && AtLeastWaiters(s, PriorityOf(s, h))
    && (forall w :: w in m.waiters ==> w in m.claims || PriorityOf(s, w) <= s.tcb[h].base)
    && (PriorityOf(s, h) == s.tcb[h].base || exists r :: r in m.claims && r in s.tcb && PriorityOf(s, h) <= PriorityOf(s, r))
  }

  ghost predicate FreeWell(s: State)
    requires WellFormed(s) && Single(s)
  {
    && TheMutex(s).claims == {}
    && (TheMutex(s).waiters != [] ==>
          && (exists t :: Heir(s, t))
          && (s.mustYield || AtLeastWaiters(s, PriorityOf(s, s.current))))
  }

  /** What the accounts come to with a single mutex. */
  ghost predicate Simple(s: State) {
    && WellFormed(s) && Single(s)
    && TheMutex(s).count == (if TheMutex(s).holder == Nobody then 1 else 0)
    && (forall t :: t in s.tcb ==>
          && s.tcb[t].priority >= s.tcb[t].base
          && (if TheMutex(s).holder == HeldBy(t) then s.tcb[t].mutexesHeld == 1 && s.phase[t].Free?
              else s.tcb[t].mutexesHeld == 0 && s.tcb[t].priority == s.tcb[t].base))
  }

  ghost predicate Core(s: State) {
    && WellFormed(s) && Single(s) && Sorted(s) && Placed(s)
    && (forall r :: r in TheMutex(s).claims ==> r in s.tcb && MayClaim(s.phase[r]))
    && (TheMutex(s).holder == Nobody ==> FreeWell(s))
    && (TheMutex(s).holder.HeldBy? ==> HeldWell(s, TheMutex(s).holder.t))
  }

  ghost predicate Inv(s: State) { Accounts(s) && Core(s) }

  lemma AccountsAreSimple(s: State)
    requires Accounts(s) && Single(s)
    ensures Simple(s)
  {
    forall t | t in s.tcb
      ensures s.tcb[t].priority >= s.tcb[t].base
      ensures if TheMutex(s).holder == HeldBy(t) then s.tcb[t].mutexesHeld == 1 && s.phase[t].Free?
              else s.tcb[t].mutexesHeld == 0 && s.tcb[t].priority == s.tcb[t].base
    {
      assert Books(s.tcb, s.mutexes, t);
      assert s.mutexes == [TheMutex(s)];
      assert HeldCount(s.mutexes[1..], t) == 0;
    }
  }

  /** A list is as sorted as the priorities of its own tasks. */
  lemma {:induction false} DescendingFrame(tcb: map<Task, Tcb>, tcb': map<Task, Tcb>, list: seq<Task>)
    requires forall w :: w in list ==> w in tcb && w in tcb' && tcb'[w].priority == tcb[w].priority
    requires Descending(tcb, list)
    ensures Descending(tcb', list)
  {
    if list != [] { DescendingFrame(tcb, tcb', list[1..]); }
  }

  lemma {:induction false} DescendingWithout(tcb: map<Task, Tcb>, list: seq<Task>, u: Task)
    requires (forall w :: w in list ==> w in tcb) && Descending(tcb, list)
    ensures Descending(tcb, Without(list, u))
  {
    if list != [] {
      DescendingWithout(tcb, list[1..], u);
      if list[0] != u {
        assert Without(list, u)[1..] == Without(list[1..], u);
      } else {
        assert Without(list, u) == Without(list[1..], u);
      }
    }
  }

  /** vListInsert keeps the list sorted. */
  lemma {:induction false} DescendingInsert(tcb: map<Task, Tcb>, list: seq<Task>, t: Task)
    requires (forall w :: w in list ==> w in tcb) && t in tcb && t !in list && Descending(tcb, list)
    requires forall u :: u in tcb ==> tcb[u].eventValue == EventValue(tcb[u].priority)
    ensures Descending(tcb, Inserted(tcb, list, t))
  {
    if list == [] || tcb[list[0]].eventValue > tcb[t].eventValue {
      HeadIsHighest(tcb, list);
      assert Inserted(tcb, list, t)[1..] == list;
    } else {
      DescendingInsert(tcb, list[1..], t);
      assert Inserted(tcb, list, t)[1..] == Inserted(tcb, list[1..], t);
    }
  }

  lemma HeadIsHighest(tcb: map<Task, Tcb>, list: seq<Task>)
    requires (forall w :: w in list ==> w in tcb) && Descending(tcb, list)
    ensures list != [] ==> AtLeast(tcb, tcb[list[0]].priority, list)
  {
    if list != [] { assert list == [list[0]] + list[1..]; }
  }

  /** An heir stays one while its priority, its phase and the list do. */
  lemma HeirStays(s: State, n: State)
    requires Simple(s) && Core(s) && TheMutex(s).holder == Nobody && TheMutex(s).waiters != []
    requires WellFormed(n) && Single(n) && TheMutex(n).waiters == TheMutex(s).waiters
    requires forall t :: t in s.tcb ==> t in n.tcb && PriorityOf(n, t) == PriorityOf(s, t)
    requires forall t :: t in s.ready && s.phase[t].Try? ==> t in n.ready && n.phase[t].Try?
    ensures exists t :: Heir(n, t)
  {
    var t :| Heir(s, t);
    assert Heir(n, t);
  }

  /** The pieces of the invariant that do not mention the holder. */
  ghost predicate Frame(n: State) {
    && WellFormed(n) && Single(n) && Sorted(n) && Placed(n)
    && (forall r :: r in TheMutex(n).claims ==> r in n.tcb && MayClaim(n.phase[r]))
  }

  lemma TakeKeeps(s: State)
    requires Simple(s) && Core(s) && TheMutex(s).count > 0 && !s.mustYield
    requires s.phase[s.current].Free? || s.phase[s.current].Try?
    ensures Core(TakeIt(s, 0))
  {
    var n := TakeIt(s, 0);
    DescendingFrame(s.tcb, n.tcb, TheMutex(s).waiters);
    assert Frame(n);
    assert HeldWell(n, s.current);
  }

  /** Moving on inside a call changes neither lists nor priorities. */
  lemma EnterKeeps(s: State, p: Phase)
    requires Simple(s) && Core(s) && !s.mustYield && !p.Waiting? && !s.phase[s.current].Waiting?
    requires InCall(p) ==> p.m == 0 && TheMutex(s).holder != HeldBy(s.current)
    requires s.current in TheMutex(s).claims ==> MayClaim(p)
    requires s.phase[s.current].Try? ==> TheMutex(s).holder != Nobody
    ensures Core(Enter(s, p))
  {
    hide Simple, Descending, AtLeast, MayClaim;
    if TheMutex(s).holder == Nobody && TheMutex(s).waiters != [] { HeirStays(s, Enter(s, p)); }
  }

  lemma IdleFrame(s: State, a: Action)
    requires Simple(s) && Core(s) && Enabled(s, a) && (a.Sleep? || a.Wake? || a.Switch?)
    ensures Frame(Apply(s, a))
  {
    hide Simple, HeldWell, FreeWell, Descending, MayClaim;
  }

  lemma IdleKeeps(s: State, a: Action)
    requires Simple(s) && Core(s) && Enabled(s, a) && (a.Sleep? || a.Wake? || a.Switch?)
    ensures Core(Apply(s, a))
  {
    IdleFrame(s, a);
    if TheMutex(s).holder == Nobody && TheMutex(s).waiters != [] {
      HeirStays(s, Apply(s, a));
      if a.Switch? {
        var t :| Heir(s, t);
        assert PriorityOf(s, a.t) >= PriorityOf(s, t);
      }
    }
    hide Sorted, Placed, Simple, MayClaim;
  }

  lemma TimeOutClaims(s: State, u: Task)
    requires Core(s) && Enabled(s, TimeOut(u))
    ensures var n := Apply(s, TimeOut(u)); Single(n) && forall r :: r in TheMutex(n).claims ==> r in n.tcb && MayClaim(n.phase[r])
  {
    hide Sorted, Placed, HeldWell, FreeWell;
  }

  lemma TimeOutSorted(s: State, u: Task)
    requires Core(s) && Enabled(s, TimeOut(u))
    ensures var n := Apply(s, TimeOut(u)); WellFormed(n) && Single(n) && Sorted(n)
  {
    hide Placed, HeldWell, FreeWell, Descending, AtLeast, MayClaim;
    DescendingWithout(s.tcb, TheMutex(s).waiters, u);
    assert TheMutex(Apply(s, TimeOut(u))).waiters == Without(TheMutex(s).waiters, u);
  }

  lemma TimeOutPlaced(s: State, u: Task)
    requires Core(s) && Enabled(s, TimeOut(u))
    ensures var n := Apply(s, TimeOut(u)); WellFormed(n) && Single(n) && Placed(n)
  {
    hide Sorted, HeldWell, FreeWell, MayClaim;
  }

  lemma TimeOutFrame(s: State, u: Task)
    requires Core(s) && Enabled(s, TimeOut(u))
    ensures Frame(Apply(s, TimeOut(u)))
  {
    TimeOutClaims(s, u);
    TimeOutSorted(s, u);
    TimeOutPlaced(s, u);
    hide Core, Sorted, Placed, MayClaim;
  }

  lemma TimeOutFree(s: State, u: Task)
    requires Core(s) && Enabled(s, TimeOut(u)) && TheMutex(s).holder == Nobody
    ensures var n := Apply(s, TimeOut(u)); WellFormed(n) && FreeWell(n)
  {
    hide Sorted, Placed, MayClaim, Descending;
    var n := Apply(s, TimeOut(u));
    if TheMutex(n).waiters != [] {
      var t :| Heir(s, t);
      assert Heir(n, t);
    }
  }

  lemma TimeOutHeld(s: State, u: Task)
    requires Core(s) && Enabled(s, TimeOut(u)) && TheMutex(s).holder.HeldBy?
    ensures var n := Apply(s, TimeOut(u)); WellFormed(n) && HeldWell(n, TheMutex(s).holder.t)
  {
    hide Sorted, Placed, MayClaim, Descending;
  }

  lemma TimeOutKeeps(s: State, u: Task)
    requires Simple(s) && Core(s) && Enabled(s, TimeOut(u))
    ensures Core(Apply(s, TimeOut(u)))
  {
    TimeOutFrame(s, u);
    if TheMutex(s).holder == Nobody { TimeOutFree(s, u); } else { TimeOutHeld(s, u); }
    hide Sorted, Placed, HeldWell, FreeWell, MayClaim, Simple;
  }

  lemma GiveKeeps(s: State)
    requires Simple(s) && Core(s) && !s.mustYield && TheMutex(s).holder == HeldBy(s.current) && s.phase[s.current].Free?
    ensures s.tcb[s.current].mutexesHeld > 0
    ensures Core(GiveIt(s, 0))
  {
    hide HeldWell, MayClaim;
    var n, waiters := GiveIt(s, 0), TheMutex(s).waiters;
    if waiters == [] {
      assert TheMutex(n).waiters == [];
    } else {
      var w := waiters[0];
      assert TheMutex(n).waiters == waiters[1..] && w != s.current;
      DescendingFrame(s.tcb, n.tcb, waiters[1..]);
      assert Frame(n);
      assert Heir(n, w);
      assert FreeWell(n);
    }
  }

  lemma TakeBackFrame(s: State)
    requires Simple(s) && Core(s) && !s.mustYield && s.phase[s.current].GaveUp?
    ensures Frame(TakeBack(s, 0))
  {
    hide HeldWell, FreeWell, AtLeast;
    var n, m := TakeBack(s, 0), TheMutex(s);
    if m.holder.HeldBy? {
      HeadIsHighest(s.tcb, m.waiters);
      TimeoutLeavesExactly(s.tcb[m.holder.t], HighestWaiting(s, 0));
    }
    DescendingFrame(s.tcb, n.tcb, m.waiters);
  }

  lemma TakeBackHeld(s: State)
    requires Simple(s) && Core(s) && !s.mustYield && s.phase[s.current].GaveUp? && TheMutex(s).holder.HeldBy?
    ensures WellFormed(TakeBack(s, 0)) && HeldWell(TakeBack(s, 0), TheMutex(s).holder.t)
  {
    hide Placed, MayClaim, Descending;
    var n, m, h := TakeBack(s, 0), TheMutex(s), TheMutex(s).holder.t;
    HeadIsHighest(s.tcb, m.waiters);
    TimeoutLeavesExactly(s.tcb[h], HighestWaiting(s, 0));
    HeldAsWaiters(s);
    assert TheMutex(n).waiters == m.waiters && TheMutex(n).claims == m.claims - {s.current};
    assert n.tcb[h].base == s.tcb[h].base && forall w :: w in m.waiters ==> n.tcb[w] == s.tcb[w];
    if m.waiters != [] && PriorityOf(n, h) != n.tcb[h].base {
      var w := m.waiters[0];
      assert w in m.waiters && w in TheMutex(n).claims && PriorityOf(n, h) <= PriorityOf(n, w);
    }
  }

  /** What the holder is left with is its base priority, or the priority of the head of the list,
      whose claim then stands. */
  lemma HeldAsWaiters(s: State)
    requires Simple(s) && Core(s) && TheMutex(s).holder.HeldBy?
    ensures forall w :: w in TheMutex(s).waiters ==> w in s.tcb && s.phase[w].Waiting? && w != TheMutex(s).holder.t
  {
    hide Sorted, HeldWell, FreeWell;
  }

  lemma TakeBackKeeps(s: State)
    requires Simple(s) && Core(s) && !s.mustYield && s.phase[s.current].GaveUp?
    ensures Core(TakeBack(s, 0))
  {
    var n, m := TakeBack(s, 0), TheMutex(s);
    TakeBackFrame(s);
    if m.holder.HeldBy? { TakeBackHeld(s); } else if m.waiters != [] { HeirStays(s, n); }
    hide Sorted, Placed, HeldWell, MayClaim, Simple;
  }

  /** Inheriting raises the holder just enough. */
  lemma BlockKeeps(s: State)
    requires Simple(s) && Core(s) && !s.mustYield && s.phase[s.current].Missed? && TheMutex(s).count == 0
    ensures Core(BlockOn(s, 0))
  {
    BlockFrame(s);
    BlockHolds(s);
    hide Sorted, Placed, HeldWell, FreeWell, MayClaim, Simple;
  }

  lemma BlockSorted(s: State)
    requires Simple(s) && Core(s) && s.phase[s.current].Missed? && TheMutex(s).holder.HeldBy?
    ensures var n := BlockOn(s, 0); WellFormed(n) && Single(n) && Sorted(n)
  {
    hide HeldWell, FreeWell, AtLeast, MayClaim;
    var n, m, t := BlockOn(s, 0), TheMutex(s), s.current;
    DescendingFrame(s.tcb, n.tcb, m.waiters);
    DescendingInsert(n.tcb, m.waiters, t);
    assert TheMutex(n).waiters == Inserted(n.tcb, m.waiters, t);
    hide Descending;
  }

  lemma BlockFrame(s: State)
    requires Simple(s) && Core(s) && !s.mustYield && s.phase[s.current].Missed? && TheMutex(s).count == 0
    ensures Frame(BlockOn(s, 0)) && TheMutex(s).holder.HeldBy? && TheMutex(BlockOn(s, 0)).holder == TheMutex(s).holder
  {
    BlockSorted(s);
    hide Sorted, HeldWell, FreeWell;
  }

  lemma BlockHolds(s: State)
    requires Simple(s) && Core(s) && s.phase[s.current].Missed? && TheMutex(s).holder.HeldBy?
    ensures WellFormed(BlockOn(s, 0)) && HeldWell(BlockOn(s, 0), TheMutex(s).holder.t)
  {
    HeldAsWaiters(s);
    hide Sorted, Placed, FreeWell, Descending, MayClaim;
    var n, m, t := BlockOn(s, 0), TheMutex(s), s.current;
    var h := m.holder.t;
    assert TheMutex(n).waiters == Inserted(n.tcb, m.waiters, t);
    assert PriorityOf(n, h) == MaxPriority(PriorityOf(s, h), PriorityOf(s, t));
    if PriorityOf(s, h) < PriorityOf(s, t) {
      assert t in TheMutex(n).claims && PriorityOf(n, h) <= PriorityOf(n, t);
    } else if PriorityOf(s, h) != s.tcb[h].base {
      var r :| r in m.claims && r in s.tcb && PriorityOf(s, h) <= PriorityOf(s, r);
      assert r in TheMutex(n).claims && PriorityOf(n, h) <= PriorityOf(n, r);
    }
  }

  lemma StepKeeps(s: State, a: Action)
    requires Inv(s) && Enabled(s, a) && !a.SetPriority?
    ensures Inv(Apply(s, a))
  {
    StepAccounts(s, a);
    AccountsAreSimple(s);
    hide Accounts, Sorted, Placed, HeldWell, FreeWell, Simple;
    var p := s.phase[s.current];
    match a
    case Take(m, block) =>
      if TheMutex(s).count > 0 { TakeKeeps(s); } else if block { EnterKeeps(s, Missed(m, false)); }
    case Retry =>
      if TheMutex(s).count > 0 { TakeKeeps(s); }
      else { EnterKeeps(s, if p.expired then Free else Missed(p.m, p.inherited)); }
    case Decide(expired) =>
      if expired { EnterKeeps(s, Expired(p.m, p.inherited)); }
      else if TheMutex(s).count == 0 { BlockKeeps(s); }
      else { EnterKeeps(s, Try(p.m, p.inherited, false)); }
    case LastLook =>
      EnterKeeps(s, if TheMutex(s).count > 0 then Try(p.m, p.inherited, true)
                    else if p.inherited then GaveUp(p.m) else Free);
    case GiveUp => TakeBackKeeps(s);
    case Give(m) => GiveKeeps(s);
    case TimeOut(u) => TimeOutKeeps(s, u);
    case _ => IdleKeeps(s, a);
  }

  lemma {:induction false} RunKeeps(s: State, run: seq<Action>)
    requires Inv(s) && Possible(s, run) && forall i :: 0 <= i < |run| ==> !run[i].SetPriority?
    ensures Inv(After(s, run))
    decreases |run|
  {
    if run != [] {
      StepKeeps(s, run[0]);
      RunKeeps(Apply(s, run[0]), run[1..]);
    }
  }

  /** The highest priority on a list, 0 when there is nobody. */
  function Highest(tcb: map<Task, Tcb>, list: seq<Task>): (p: Level)
    requires forall w :: w in list ==> w in tcb
    ensures AtLeast(tcb, p, list)
    ensures list != [] ==> exists w :: w in list && p == tcb[w].priority
  {
    if list == [] then 0 else
      assert list == [list[0]] + list[1..];
      var p := Highest(tcb, list[1..]);
      assert list[1..] != [] ==> exists w :: w in list[1..] && p == tcb[w].priority;
      assert tcb[list[0]].priority >= p || list[1..] != [];
      MaxPriority(tcb[list[0]].priority, p)
  }

  /** In every reachable state the holder runs at least at the priority of every task on the
      waiting list; above its base priority only as far as a caller that is still in its call
      made it; and, once every such caller is on the list, at exactly the greater of its base
      priority and the highest waiting one. */
  lemma BoundedInversion(s: State, run: seq<Action>)
    requires Init(s) && Single(s) && Possible(s, run)
    requires forall i :: 0 <= i < |run| ==> !run[i].SetPriority?
    ensures WellFormed(After(s, run)) && Single(After(s, run))
    ensures var n := After(s, run); var m := TheMutex(n);
            m.holder.HeldBy? ==>
              var h := m.holder.t;
              && (forall w :: w in m.waiters ==> PriorityOf(n, h) >= PriorityOf(n, w))
              && (PriorityOf(n, h) > n.tcb[h].base ==>
                    exists r :: r in m.claims && r in n.tcb && MayClaim(n.phase[r]) && PriorityOf(n, h) <= PriorityOf(n, r))
              && ((forall r :: r in m.claims ==> r in m.waiters) ==>
                    PriorityOf(n, h) == MaxPriority(n.tcb[h].base, Highest(n.tcb, m.waiters)))
  {
    InitAccounts(s);
    InitCore(s);
    RunKeeps(s, run);
    CoreIsSingle(After(s, run));
    AccountsAreSimple(After(s, run));
  }

  lemma InitCore(s: State)
    requires Init(s) && Single(s)
    ensures Core(s)
  {
  }

  lemma CoreIsSingle(s: State)
    requires Core(s)
    ensures WellFormed(s) && Single(s)
  {
  }

  /** A timed-out caller leaves the holder at exactly max(base, highest remaining waiter). */
  lemma TimeoutExact(s: State, run: seq<Action>)
    requires Init(s) && Single(s) && Possible(s, run + [GiveUp])
    requires forall i :: 0 <= i < |run| ==> !run[i].SetPriority?
    ensures WellFormed(After(s, run + [GiveUp])) && Single(After(s, run + [GiveUp]))
    ensures var n := After(s, run + [GiveUp]); var m := TheMutex(n);
            m.holder.HeldBy? ==>
              PriorityOf(n, m.holder.t) == MaxPriority(n.tcb[m.holder.t].base, Highest(n.tcb, m.waiters))
  {
    hide Accounts, Core, Single;
    InitAccounts(s);
    InitCore(s);
    Extend(s, run, GiveUp);
    RunKeeps(s, run);
    GiveUpExact(After(s, run));
  }

  lemma GiveUpExact(s: State)
    requires Inv(s) && Enabled(s, GiveUp)
    ensures var n := Apply(s, GiveUp);
            && WellFormed(n) && Single(n)
            && var m := TheMutex(n);
               m.holder.HeldBy? ==>
                 PriorityOf(n, m.holder.t) == MaxPriority(n.tcb[m.holder.t].base, Highest(n.tcb, m.waiters))
  {
    CoreIsSingle(s);
    AccountsAreSimple(s);
    assert Apply(s, GiveUp) == TakeBack(s, 0);
    TakeBackExact(s);
    hide Simple, Core, Accounts, Apply, TakeBack, Enabled;
  }

  lemma TakeBackExact(s: State)
    requires Simple(s) && Core(s) && !s.mustYield && s.phase[s.current].GaveUp?
    ensures WellFormed(TakeBack(s, 0)) && Single(TakeBack(s, 0))
    ensures var n := TakeBack(s, 0); var m := TheMutex(n);
            m.holder.HeldBy? ==>
              PriorityOf(n, m.holder.t) == MaxPriority(n.tcb[m.holder.t].base, Highest(n.tcb, m.waiters))
  {
    var n, m := TakeBack(s, 0), TheMutex(s);
    HeadIsHighest(s.tcb, m.waiters);
    if m.holder.HeldBy? {
      TimeoutLeavesExactly(s.tcb[m.holder.t], HighestWaiting(s, 0));
      assert forall w :: w in m.waiters ==> w != m.holder.t;
    }
  }

  lemma {:induction false} Extend(s: State, run: seq<Action>, a: Action)
    requires Possible(s, run + [a])
    ensures Possible(s, run) && WellFormed(After(s, run)) && Enabled(After(s, run), a)
    ensures After(s, run + [a]) == Apply(After(s, run), a)
    decreases |run|
  {
    if run == [] {
      assert run + [a] == [a];
    } else {
      assert (run + [a])[1..] == run[1..] + [a];
      Extend(Apply(s, run[0]), run[1..], a);
    }
  }

  // The running task is not always the most urgent one.

  predicate RunsHighest(s: State)
    requires WellFormed(s)
  {
    s.mustYield || forall u :: u in s.ready ==> PriorityOf(s, s.current) >= PriorityOf(s, u)
  }

  /** The yield that disinheriting asks for is dropped when a waiter is woken as well: only the
      waiter's priority is looked at then. */
  predicate YieldDropped(s: State, m: nat)
    requires WellFormed(s) && m < |s.mutexes|
  {
    var t, waiters := s.tcb[s.current], s.mutexes[m].waiters;
    && t.mutexesHeld == 1 && t.priority != t.base
    && waiters != [] && s.tcb[waiters[0]].priority <= t.base
    && exists u :: u in s.ready && u != s.current && s.tcb[u].priority > t.base
  }

  /** A give leaves the most urgent ready task running, or a yield on its way, exactly otherwise. */
  lemma GiveRunsHighestIff(s: State, m: nat)
    requires WellFormed(s) && Enabled(s, Give(m)) && RunsHighest(s)
    requires forall w :: w in s.mutexes[m].waiters ==> w != s.current && w !in s.ready
    ensures WellFormed(GiveIt(s, m))
    ensures RunsHighest(GiveIt(s, m)) <==> !YieldDropped(s, m)
  {
  }

  /** A state some run without priority changes leads to. */
  ghost predicate Reaches(s: State, n: State) {
    exists run: seq<Action> :: Leads(s, run, n)
  }

  ghost predicate Leads(s: State, run: seq<Action>, n: State) {
    Possible(s, run) && After(s, run) == n && forall i :: 0 <= i < |run| ==> !run[i].SetPriority?
  }

  lemma {:induction false} Append(s: State, run: seq<Action>, a: Action)
    requires Possible(s, run) && WellFormed(After(s, run)) && Enabled(After(s, run), a) && WellFormed(Apply(After(s, run), a))
    ensures Possible(s, run + [a]) && After(s, run + [a]) == Apply(After(s, run), a)
    decreases |run|
  {
    if run == [] {
      assert run + [a] == [a];
    } else {
      assert (run + [a])[1..] == run[1..] + [a];
      Append(Apply(s, run[0]), run[1..], a);
    }
  }

  predicate Goes(s: State, a: Action, n: State) {
    WellFormed(s) && Enabled(s, a) && !a.SetPriority? && Apply(s, a) == n && WellFormed(n)
  }

  lemma OneMore(s: State, n: State, a: Action, m: State)
    requires Reaches(s, n) && Goes(n, a, m)
    ensures Reaches(s, m)
  {
    var run :| Leads(s, run, n);
    Append(s, run, a);
    assert Leads(s, run + [a], m);
  }

  const LOW: Tcb := Tcb(1, 1, 0, 4)
  const HOLDER: Tcb := Tcb(1, 1, 1, 4)
  const RAISED: Tcb := Tcb(3, 1, 1, 2)
  const HIGH: Tcb := Tcb(3, 3, 0, 2)

  const IN: Phase := Missed(0, false)
  const ON: Phase := Waiting(0, false)

  /** Three tasks and a mutex: task 0 has no call going, task 1 has base priority 3, the others 1. */
  function Scene(t0: Tcb, p1: Phase, p2: Phase, m: Mutex, ready: set<Task>, current: Task, mustYield: bool): State {
    State(map[0 := t0, 1 := HIGH, 2 := LOW], map[0 := Free, 1 := p1, 2 := p2], [m], ready, current, mustYield)
  }

  function Start(): State { Scene(LOW, Free, Free, Mutex(Nobody, 1, [], {}), {0, 1, 2}, 1, false) }

  /** Task 1 has gone to sleep and task 0 has taken the mutex. */
  function Taken(): State { Scene(HOLDER, Free, Free, Mutex(HeldBy(0), 0, [], {}), {0, 2}, 0, false) }

  /** Task 2 has blocked on it. */
  function OneWaits(): State { Scene(HOLDER, Free, ON, Mutex(HeldBy(0), 0, [2], {}), {0}, 0, false) }

  /** Task 1 has woken and blocked on it as well. */
  function TwoWait(): State { Scene(RAISED, Waiting(0, true), ON, Mutex(HeldBy(0), 0, [1, 2], {1}), {0}, 1, true) }

  /** Task 1 has timed out, but has not run again. */
  function Giving(): State { Scene(RAISED, Try(0, true, false), ON, Mutex(HeldBy(0), 0, [2], {1}), {0, 1}, 0, false) }

  function Asleep(): State { Scene(LOW, Free, Free, Mutex(Nobody, 1, [], {}), {0, 2}, 1, true) }

  function Woken(m: Mutex, p1: Phase, current: Task): State { Scene(HOLDER, p1, ON, m, {0, 1}, current, false) }

  lemma OneBlocks(s: State, n: State)
    requires s == Scene(HOLDER, Free, IN, Mutex(HeldBy(0), 0, [], {}), {0, 2}, 2, false)
    requires n == Scene(HOLDER, Free, ON, Mutex(HeldBy(0), 0, [2], {}), {0}, 2, true)
    ensures Goes(s, Decide(false), n)
  {
    assert Inherit(HOLDER, 1) == (HOLDER, false);
    assert Apply(s, Decide(false)) == BlockOn(s, 0);
    assert s.tcb[0 := HOLDER] == s.tcb && s.phase[2 := ON] == n.phase;
    assert Inserted(s.tcb, [], 2) == [2];
    assert {0, 2} - {2} == {0};
    assert s.mutexes[0 := n.mutexes[0]] == n.mutexes;
    assert BlockOn(s, 0).mutexes[0].waiters == [2];
    assert BlockOn(s, 0).mutexes[0].claims == {};
  }

  lemma OtherBlocks(s: State, n: State)
    requires s == Woken(Mutex(HeldBy(0), 0, [2], {}), IN, 1) && n == TwoWait()
    ensures Goes(s, Decide(false), n)
  {
    assert Inherit(HOLDER, 3) == (RAISED, true);
    assert Apply(s, Decide(false)) == BlockOn(s, 0);
    assert s.tcb[0 := RAISED] == n.tcb && s.phase[1 := Waiting(0, true)] == n.phase;
    assert Inserted(n.tcb, [2], 1) == [1] + [2];
    assert {0, 1} - {1} == {0} && {} + {1} == {1};
    assert s.mutexes[0 := n.mutexes[0]] == n.mutexes;
    assert BlockOn(s, 0).mutexes[0].waiters == [1, 2];
  }

  lemma OtherTimesOut(s: State)
    requires s == Scene(RAISED, Waiting(0, true), ON, Mutex(HeldBy(0), 0, [1, 2], {1}), {0}, 0, false)
    ensures Goes(s, TimeOut(1), Giving())
  {
    var list: seq<Task> := [1, 2];
    assert list[1..] == [2] && Without([2], 1) == [2] && Without(list, 1) == [2];
    assert s.phase[1 := Try(0, true, false)] == Giving().phase;
    assert {0} + {1} == {0, 1};
  }

  lemma StartIsInitial()
    ensures Init(Start()) && Single(Start()) && Reaches(Start(), Start())
  {
    assert Leads(Start(), [], Start());
  }

  lemma SwitchGoes(s: State, t: Task)
    requires WellFormed(s) && Enabled(s, Switch(t))
    ensures Goes(s, Switch(t), s.(current := t, mustYield := false))
  {
  }

  function Awake(): State { Asleep().(current := 0, mustYield := false) }

  lemma ReachAwake()
    requires Reaches(Start(), Start())
    ensures Reaches(Start(), Awake())
  {
    hide Reaches;
    assert Goes(Start(), Sleep, Asleep()) by { assert {0, 1, 2} - {1} == {0, 2}; }
    SwitchGoes(Asleep(), 0);
    hide Goes;
    OneMore(Start(), Start(), Sleep, Asleep());
    OneMore(Start(), Asleep(), Switch(0), Awake());
  }

  lemma ReachTaken()
    requires Reaches(Start(), Awake())
    ensures Reaches(Start(), Taken())
  {
    hide Reaches;
    var awake := Awake();
    assert Goes(awake, Take(0, true), Taken()) by {
      assert awake.tcb[0 := HOLDER] == Taken().tcb && awake.phase[0 := Free] == Taken().phase;
    }
    OneMore(Start(), awake, Take(0, true), Taken());
  }

  function Late(p2: Phase): State { Scene(HOLDER, Free, p2, Mutex(HeldBy(0), 0, [], {}), {0, 2}, 2, false) }

  lemma ReachLate()
    requires Reaches(Start(), Taken())
    ensures Reaches(Start(), Late(IN))
  {
    hide Reaches;
    SwitchGoes(Taken(), 2);
    assert Goes(Late(Free), Take(0, true), Late(IN)) by { assert Late(Free).phase[2 := IN] == Late(IN).phase; }
    hide Goes;
    OneMore(Start(), Taken(), Switch(2), Late(Free));
    OneMore(Start(), Late(Free), Take(0, true), Late(IN));
  }

  lemma ReachOneWaits()
    requires Reaches(Start(), Late(IN))
    ensures Reaches(Start(), OneWaits())
  {
    hide Reaches;
    var blocked := OneWaits().(current := 2, mustYield := true);
    OneBlocks(Late(IN), blocked);
    SwitchGoes(blocked, 0);
    hide Goes;
    OneMore(Start(), Late(IN), Decide(false), blocked);
    OneMore(Start(), blocked, Switch(0), OneWaits());
  }

  lemma ReachTwoWait()
    requires Reaches(Start(), OneWaits())
    ensures Reaches(Start(), TwoWait())
  {
    hide Reaches;
    var m := Mutex(HeldBy(0), 0, [2], {});
    assert {0} + {1} == {0, 1};
    SwitchGoes(Woken(m, Free, 0), 1);
    OneMore(Start(), OneWaits(), Wake(1), Woken(m, Free, 0));
    OneMore(Start(), Woken(m, Free, 0), Switch(1), Woken(m, Free, 1));
    OneMore(Start(), Woken(m, Free, 1), Take(0, true), Woken(m, IN, 1));
    OtherBlocks(Woken(m, IN, 1), TwoWait());
    OneMore(Start(), Woken(m, IN, 1), Decide(false), TwoWait());
  }

  lemma ReachGiving()
    requires Reaches(Start(), TwoWait())
    ensures Reaches(Start(), Giving())
  {
    hide Reaches;
    var s := TwoWait().(current := 0, mustYield := false);
    OneMore(Start(), TwoWait(), Switch(0), s);
    OtherTimesOut(s);
    OneMore(Start(), s, TimeOut(1), Giving());
  }

  /** It happens: in a state that a run from the start leads to, task 0 gives the mutex it holds at
      the inherited priority 3 while task 1, whose time-out is not processed yet, is ready at 3 and
      task 2 waits at 1. The yield is dropped, and task 0 goes on at priority 1. */
  lemma YieldDroppedExample()
    ensures Init(Start()) && Single(Start()) && Reaches(Start(), Giving())
    ensures var s := Giving();
            && WellFormed(s) && Enabled(s, Give(0)) && RunsHighest(s) && YieldDropped(s, 0)
            && WellFormed(GiveIt(s, 0)) && !RunsHighest(GiveIt(s, 0))
  {
    hide Reaches, Init;
    StartIsInitial();
    ReachAwake();
    ReachTaken();
    ReachLate();
    ReachOneWaits();
    ReachTwoWait();
    ReachGiving();
    assert 1 in Giving().ready && Giving().tcb[1].priority > Giving().tcb[0].base;
    GiveRunsHighestIff(Giving(), 0);
  }
}
