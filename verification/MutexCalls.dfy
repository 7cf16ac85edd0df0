/** How mutex calls end, who changes priorities and by how much, and how long a waiter can count on
    the holder running at its priority, with any number of mutexes. */
module MutexCalls {
  import opened Sequences
  import opened Priorities
  import opened Mutexes
  import Rings

  // What a task asked for.

  /** The mutex a task last asked for, whether it has since looked at the clock after its deadline, and
      whether the holder was running on its priority, or could have been, when it last blocked. */
  datatype Story = NoCall | Made(m: nat, expired: bool, lent: bool)

  /** What the running task of `s` adds to its story. */
  function Told(s: State, story: Story, a: Action): Story
    requires WellFormed(s)
  {
    match a
    case Take(m, _) => Made(m, false, false)
    case Decide(expired) =>
      if !story.Made? then story
      else if expired then story.(expired := true)
      else if story.m < |s.mutexes| && s.mutexes[story.m].holder.HeldBy? then
        story.(lent := s.tcb[s.mutexes[story.m].holder.t].base < PriorityOf(s, s.current))
      else story
    case _ => story
  }

  /** The story of task `t` over a run that begins after `story`. */
  ghost function StoryOf(s: State, run: seq<Action>, t: Task, story: Story): Story
    requires Possible(s, run)
    decreases |run|
  {
    if run == [] then story else
      StoryOf(Apply(s, run[0]), run[1..], t, if s.current == t then Told(s, story, run[0]) else story)
  }

  predicate PastDeadline(p: Phase) { p.Expired? || p.GaveUp? || (p.Try? && p.expired) }

  predicate Tells(p: Phase, story: Story) {
    !p.Free? ==>
      && story.Made? && p.m == story.m && (PastDeadline(p) ==> story.expired)
      && (if p.GaveUp? then story.lent else p.inherited == story.lent)
  }

  // Who waits where.

  /** Event lists hold waiting tasks, each once, and waiting tasks are not ready. */
  ghost predicate Lined(s: State) {
    && WellFormed(s)
    && (s.mustYield || s.current in s.ready)
    && (forall i :: 0 <= i < |s.mutexes| ==> Distinct(s.mutexes[i].waiters))
    && (forall i, w :: 0 <= i < |s.mutexes| && w in s.mutexes[i].waiters ==> s.phase[w].Waiting? && s.phase[w].m == i)
    && (forall t :: t in s.tcb && s.phase[t].Waiting? ==> t !in s.ready)
  }

  lemma {:induction false} InsertedDistinct(tcb: map<Task, Tcb>, list: seq<Task>, t: Task)
    requires t in tcb && (forall w :: w in list ==> w in tcb) && Distinct(list) && t !in list
    ensures Distinct(Inserted(tcb, list, t))
  {
    if list != [] && tcb[list[0]].eventValue <= tcb[t].eventValue {
      InsertedDistinct(tcb, list[1..], t);
      assert list == [list[0]] + list[1..];
      assert list[0] !in list[1..];
      assert list[0] !in Inserted(tcb, list[1..], t);
    }
  }

  /** A step that leaves the lists alone, and turns no task into a waiting one. */
  lemma LinedSame(s: State, n: State)
    requires Lined(s) && WellFormed(n) && |n.mutexes| == |s.mutexes| && n.tcb.Keys == s.tcb.Keys
    requires forall i :: 0 <= i < |s.mutexes| ==> n.mutexes[i].waiters == s.mutexes[i].waiters
    requires forall t :: t in s.tcb ==> n.phase[t] == s.phase[t] || (!n.phase[t].Waiting? && !s.phase[t].Waiting?)
    requires forall t :: t in n.ready && t !in s.ready ==> !s.phase[t].Waiting?
    requires n.mustYield || n.current in n.ready
    ensures Lined(n)
  {
    forall i, w | 0 <= i < |n.mutexes| && w in n.mutexes[i].waiters ensures n.phase[w].Waiting? && n.phase[w].m == i {
      assert w in s.mutexes[i].waiters;
    }
  }

  lemma BlockLined(s: State, m: nat)
    requires Lined(s) && m < |s.mutexes| && !s.phase[s.current].Waiting?
    ensures Lined(BlockOn(s, m))
  {
    hide Inherit;
    var n, t := BlockOn(s, m), s.current;
    InsertedDistinct(n.tcb, s.mutexes[m].waiters, t);
    assert n.mutexes[m].waiters == Inserted(n.tcb, s.mutexes[m].waiters, t);
    hide Inserted;
    forall i, w | 0 <= i < |n.mutexes| && w in n.mutexes[i].waiters ensures n.phase[w].Waiting? && n.phase[w].m == i {
      assert w != t ==> w in s.mutexes[i].waiters;
    }
  }

  lemma TimeOutLined(s: State, u: Task)
    requires Lined(s) && Enabled(s, TimeOut(u))
    ensures Lined(Apply(s, TimeOut(u)))
  {
    var m, n := s.phase[u].m, Apply(s, TimeOut(u));
    WithoutDistinct(s.mutexes[m].waiters, u);
    hide Without;
    forall i, w | 0 <= i < |n.mutexes| && w in n.mutexes[i].waiters ensures n.phase[w].Waiting? && n.phase[w].m == i {
      assert w in s.mutexes[i].waiters;
    }
  }

  lemma GiveLined(s: State, m: nat)
    requires Lined(s) && Enabled(s, Give(m))
    ensures Lined(GiveIt(s, m))
  {
    hide Disinherit;
    var n, waiters := GiveIt(s, m), s.mutexes[m].waiters;
    assert n.mutexes[m].waiters == waiters[Min(1, |waiters|)..];
    if waiters != [] {
      assert waiters[0] in waiters && waiters[0] !in waiters[1..];
    }
    forall i, w | 0 <= i < |n.mutexes| && w in n.mutexes[i].waiters ensures n.phase[w].Waiting? && n.phase[w].m == i {
      assert w in s.mutexes[i].waiters;
    }
  }

  lemma TakeLined(s: State, m: nat)
    requires Lined(s) && m < |s.mutexes| && s.mutexes[m].count > 0 && !s.phase[s.current].Waiting?
    ensures Lined(TakeIt(s, m))
  {
    hide Distinct, Hold;
    LinedSame(s, TakeIt(s, m));
  }

  lemma EnterLined(s: State, p: Phase)
    requires Lined(s) && !s.phase[s.current].Waiting? && !p.Waiting? && (!p.Free? ==> p.m < |s.mutexes|)
    ensures Lined(Enter(s, p))
  {
    hide Distinct;
    LinedSame(s, Enter(s, p));
  }

  lemma TakeBackLined(s: State, m: nat)
    requires Lined(s) && m < |s.mutexes| && !s.phase[s.current].Waiting?
    ensures Lined(TakeBack(s, m))
  {
    hide Distinct, DisinheritAfterTimeout, HighestWaiting;
    LinedSame(s, TakeBack(s, m));
  }

  lemma InCallLined(s: State, a: Action)
    requires Lined(s) && Enabled(s, a)
    requires a.Take? || a.Retry? || a.LastLook? || a.GiveUp?
    ensures Lined(Apply(s, a))
  {
    var p := s.phase[s.current];
    match a
    case Take(m, block) =>
      if s.mutexes[m].count > 0 { TakeLined(s, m); } else if block { EnterLined(s, Missed(m, false)); }
      hide Lined, TakeIt;
    case Retry =>
      if s.mutexes[p.m].count > 0 { TakeLined(s, p.m); } else { EnterLined(s, if p.expired then Free else Missed(p.m, p.inherited)); }
      hide Lined, TakeIt;
    case LastLook =>
      EnterLined(s, if s.mutexes[p.m].count > 0 then Try(p.m, p.inherited, true)
                    else if p.inherited then GaveUp(p.m) else Free);
      hide Lined;
    case GiveUp =>
      TakeBackLined(s, p.m);
      hide Lined, TakeBack;
    case _ =>
  }

  lemma IdleLined(s: State, a: Action)
    requires Lined(s) && Enabled(s, a)
    requires a.Sleep? || a.Wake? || a.Switch? || a.SetPriority?
    ensures Lined(Apply(s, a))
  {
    hide Distinct;
    LinedSame(s, Apply(s, a));
  }

  lemma DecideLined(s: State, expired: bool)
    requires Lined(s) && Enabled(s, Decide(expired)) && (expired || s.mutexes[s.phase[s.current].m].count > 0)
    ensures Lined(Apply(s, Decide(expired)))
  {
    hide Inserted, Distinct, BlockOn;
    LinedSame(s, Apply(s, Decide(expired)));
  }

  lemma StepLined(s: State, a: Action)
    requires Lined(s) && Enabled(s, a)
    ensures Lined(Apply(s, a))
  {
    match a
    case TimeOut(u) => TimeOutLined(s, u);
    case Give(m) => GiveLined(s, m);
    case Decide(expired) =>
      var m := s.phase[s.current].m;
      if expired || s.mutexes[m].count > 0 {
        DecideLined(s, expired);
      } else {
        BlockLined(s, m);
        hide Lined, BlockOn;
      }
    case Take(_, _) => InCallLined(s, a);
    case Retry => InCallLined(s, a);
    case LastLook => InCallLined(s, a);
    case GiveUp => InCallLined(s, a);
    case _ => IdleLined(s, a);
  }

  lemma StepTells(s: State, a: Action, t: Task, story: Story)
    requires Lined(s) && Enabled(s, a) && t in s.tcb && Tells(s.phase[t], story)
    requires forall h :: h in s.tcb ==> s.tcb[h].priority >= s.tcb[h].base
    requires forall i :: 0 <= i < |s.mutexes| ==> s.mutexes[i].count == if s.mutexes[i].holder == Nobody then 1 else 0
    ensures t in Apply(s, a).tcb && t in Apply(s, a).phase
    ensures Tells(Apply(s, a).phase[t], if s.current == t then Told(s, story, a) else story)
  {
    hide Inserted, Disinherit, DisinheritAfterTimeout, Without, HighestWaiting, Distinct, HeldCount;
    if a.Give? && s.mutexes[a.m].waiters != [] { assert s.mutexes[a.m].waiters[0] in s.mutexes[a.m].waiters; }
  }

  lemma AboveBase(s: State)
    requires Accounts(s)
    ensures forall h :: h in s.tcb ==> s.tcb[h].priority >= s.tcb[h].base
    ensures forall i :: 0 <= i < |s.mutexes| ==> s.mutexes[i].count == if s.mutexes[i].holder == Nobody then 1 else 0
  {
    hide HeldCount;
    forall h | h in s.tcb ensures s.tcb[h].priority >= s.tcb[h].base { assert Books(s.tcb, s.mutexes, h); }
  }

  lemma {:induction false} RunTells(s: State, run: seq<Action>, t: Task, story: Story)
    requires Accounts(s) && Lined(s) && Possible(s, run) && t in s.tcb && Tells(s.phase[t], story)
    ensures Lined(After(s, run)) && t in After(s, run).tcb && t in After(s, run).phase
    ensures Tells(After(s, run).phase[t], StoryOf(s, run, t, story))
    decreases |run|
  {
    if run != [] {
      hide Apply, Enabled, Tells, Told;
      AboveBase(s);
      StepTells(s, run[0], t, story);
      StepLined(s, run[0]);
      StepAccounts(s, run[0]);
      RunTells(Apply(s, run[0]), run[1..], t, if s.current == t then Told(s, story, run[0]) else story);
    }
  }


  lemma {:induction false} RunLined(s: State, run: seq<Action>)
    requires Lined(s) && Possible(s, run)
    ensures Lined(After(s, run))
    decreases |run|
  {
    if run != [] {
      hide Apply, Enabled, Lined;
      StepLined(s, run[0]);
      RunLined(Apply(s, run[0]), run[1..]);
    }
  }

  lemma InitLined(s: State)
    requires Init(s)
    ensures Lined(s) && forall t :: t in s.tcb ==> Tells(s.phase[t], NoCall)
  {
  }

  ghost function CurrentStory(s: State, run: seq<Action>): Story
    requires Possible(s, run)
  {
    StoryOf(s, run, After(s, run).current, NoCall)
  }

  // How a call ends.

  ghost predicate HolderIs(s: State, m: nat, h: Holder) { m < |s.mutexes| && s.mutexes[m].holder == h }

  predicate Can(n: State, a: Action) { WellFormed(n) && Enabled(n, a) }

  /** What a step may make of the calls and the holders: the running task's call ends with the mutex if
      it is free, and without it only after its deadline, be it that it became free after the last look, and
      after taking back the priority that it lent when it blocked; a first attempt gets a free mutex, and goes on
      with its call or fails as its caller asked; a give leaves the mutex free; nobody else's holding
      changes. */
  ghost predicate Honest(n: State, a: Action, m: State, story: Story)
    requires WellFormed(n)
  {
    var t := n.current;
    && (t in m.phase)
    && (!n.phase[t].Free? && m.phase[t].Free? ==>
          story.Made? && if HolderIs(n, story.m, Nobody) && !a.GiveUp? then HolderIs(m, story.m, HeldBy(t)) else story.expired)
    && (a.Take? ==>
          if HolderIs(n, a.m, Nobody) then HolderIs(m, a.m, HeldBy(t)) && m.phase[t].Free?
          else if a.block then !m.phase[t].Free? && m.phase[t].m == a.m else m == n)
    && (a.Give? ==> HolderIs(m, a.m, Nobody))
    && (a.LastLook? && story.Made? && !HolderIs(n, story.m, Nobody) ==> (m.phase[t].GaveUp? <==> story.lent) && (m.phase[t].Free? <==> !story.lent))
    && |m.mutexes| == |n.mutexes|
    && forall i :: 0 <= i < |n.mutexes| && m.mutexes[i].holder != n.mutexes[i].holder ==>
         if a.Give? then a.m == i && n.mutexes[i].holder == HeldBy(t)
         else n.mutexes[i].holder == Nobody && m.mutexes[i].holder == HeldBy(t) && m.phase[t].Free?
  }

  lemma StepHonest(n: State, a: Action, story: Story)
    requires Accounts(n) && Lined(n) && Enabled(n, a) && Tells(n.phase[n.current], story)
    ensures Honest(n, a, Apply(n, a), story)
  {
    hide Inserted, Inherit, Disinherit, DisinheritAfterTimeout, HighestWaiting, Without, Books, Distinct;
    if a.Give? && n.mutexes[a.m].waiters != [] { assert n.mutexes[a.m].waiters[0] in n.mutexes[a.m].waiters; }
  }

  /** In every run every step is honest. */
  lemma CallsEndRight(s: State, run: seq<Action>, a: Action)
    requires Init(s) && Possible(s, run) && Can(After(s, run), a)
    ensures Honest(After(s, run), a, Apply(After(s, run), a), CurrentStory(s, run))
  {
    var n := After(s, run);
    InitAccounts(s);
    InitLined(s);
    RunAccounts(s, run);
    TasksStay(s, run);
    RunTells(s, run, n.current, NoCall);
    StepHonest(n, a, CurrentStory(s, run));
  }

  lemma {:induction false} TasksStay(s: State, run: seq<Action>)
    requires Possible(s, run)
    ensures After(s, run).tcb.Keys == s.tcb.Keys && |After(s, run).mutexes| == |s.mutexes|
    ensures WellFormed(After(s, run))
    decreases |run|
  {
    if run != [] { TasksStay(Apply(s, run[0]), run[1..]); }
  }

  /** A look at the clock in time blocks the task iff the mutex is held; a look past the deadline never
      does. */
  lemma LooksBlockIff(s: State, run: seq<Action>, expired: bool)
    requires Init(s) && Possible(s, run) && Can(After(s, run), Decide(expired)) && CurrentStory(s, run).Made?
    ensures var n, i := After(s, run), CurrentStory(s, run).m;
            var m, t := Apply(n, Decide(expired)), n.current;
            && i < |n.mutexes| && |m.mutexes| == |n.mutexes|
            && (t in m.mutexes[i].waiters <==> !expired && n.mutexes[i].holder != Nobody)
            && (t in m.ready <==> t !in m.mutexes[i].waiters)
            && t in m.phase && (expired ==> m.phase[t].Expired?)
  {
    var n := After(s, run);
    InitAccounts(s);
    InitLined(s);
    RunAccounts(s, run);
    TasksStay(s, run);
    RunTells(s, run, n.current, NoCall);
    assert n.current !in n.mutexes[n.phase[n.current].m].waiters;
    hide Inherit, Books;
  }

  /** What task `t` does itself in a run; switches, wake-ups and time-outs happen to it. */
  ghost function MovesOf(s: State, run: seq<Action>, t: Task): seq<Action>
    requires Possible(s, run)
    decreases |run|
  {
    if run == [] then [] else
      (if s.current == t && IsMove(run[0]) then [run[0]] else []) + MovesOf(Apply(s, run[0]), run[1..], t)
  }

  predicate IsMove(a: Action) { !a.Switch? && !a.Wake? && !a.TimeOut? && !a.SetPriority? }

  ghost predicate StaysHeld(s: State, run: seq<Action>, i: nat)
    requires Possible(s, run)
    decreases |run|
  {
    && i < |s.mutexes| && s.mutexes[i].count == 0
    && (run == [] || StaysHeld(Apply(s, run[0]), run[1..], i))
  }

  function MovesLeft(p: Phase): seq<Action> {
    match p
    case Expired(_, inherited) => [LastLook] + if inherited then [GiveUp] else []
    case GaveUp(_) => [GiveUp]
    case _ => []
  }

  lemma ExpiredStep(s: State, a: Action, t: Task)
    requires Lined(s) && Enabled(s, a) && t in s.tcb && (s.phase[t].Expired? || s.phase[t].GaveUp?)
    requires s.mutexes[s.phase[t].m].count == 0
    ensures t in Apply(s, a).tcb && t in Apply(s, a).phase
    ensures var p, n := s.phase[t], Apply(s, a).phase[t];
            if s.current == t && IsMove(a) then
              && MovesLeft(p) != [] && a == MovesLeft(p)[0] && MovesLeft(n) == MovesLeft(p)[1..]
              && (if MovesLeft(n) == [] then n.Free? else n.GaveUp? && n.m == p.m)
            else n == p
  {
    hide Inserted, Inherit, Disinherit, DisinheritAfterTimeout, HighestWaiting, Without, Distinct;
    if a.Give? && s.mutexes[a.m].waiters != [] { assert s.mutexes[a.m].waiters[0] in s.mutexes[a.m].waiters; }
  }

  /** After a look past the deadline, as long as the mutex stays held: one last look, giving back what
      was inherited, and the call is over, without another attempt. */
  lemma {:induction false} ExpiredEnds(s: State, run: seq<Action>, t: Task)
    requires Lined(s) && Possible(s, run) && t in s.tcb && (s.phase[t].Expired? || s.phase[t].GaveUp?)
    requires StaysHeld(s, run, s.phase[t].m)
    ensures t in After(s, run).phase
    ensures var own, path := MovesOf(s, run, t), MovesLeft(s.phase[t]);
            && (forall k :: 0 <= k < |own| && k < |path| ==> own[k] == path[k])
            && (|own| < |path| ==> !After(s, run).phase[t].Free?)
            && (|own| == |path| ==> After(s, run).phase[t].Free?)
    decreases |run|
  {
    hide Apply, Enabled;
    if run != [] {
      var a, rest := run[0], run[1..];
      var n := Apply(s, a);
      ExpiredStep(s, a, t);
      StepLined(s, a);
      if s.current == t && IsMove(a) && |MovesLeft(s.phase[t])| == 1 {
        StaysFree(n, rest, t);
      } else {
        ExpiredEnds(n, rest, t);
      }
    }
  }

  lemma {:induction false} StaysFree(s: State, run: seq<Action>, t: Task)
    requires Lined(s) && Possible(s, run) && t in s.tcb && s.phase[t].Free?
    ensures t in After(s, run).phase
    ensures MovesOf(s, run, t) == [] ==> After(s, run).phase[t].Free?
    decreases |run|
  {
    if run != [] {
      StepLined(s, run[0]);
      FreeStep(s, run[0], t);
      hide Apply, Enabled, Lined;
      if s.current != t || !IsMove(run[0]) {
        StaysFree(Apply(s, run[0]), run[1..], t);
      } else {
        TasksStay(Apply(s, run[0]), run[1..]);
      }
    }
  }

  lemma FreeStep(s: State, a: Action, t: Task)
    requires Lined(s) && Enabled(s, a) && t in s.tcb && s.phase[t].Free?
    ensures t in Apply(s, a).tcb && t in Apply(s, a).phase
    ensures (s.current == t && IsMove(a)) || Apply(s, a).phase[t].Free?
  {
    hide Inserted, Inherit, Disinherit, DisinheritAfterTimeout, HighestWaiting, Without, Distinct;
    if a.Give? && s.mutexes[a.m].waiters != [] { assert s.mutexes[a.m].waiters[0] in s.mutexes[a.m].waiters; }
  }

  // Who changes priorities, and by how much.

  /** Event list items carry the priorities, in runs without vTaskPrioritySet. */
  ghost predicate Valued(s: State) { forall t :: t in s.tcb ==> s.tcb[t].eventValue == EventValue(s.tcb[t].priority) }

  lemma StepValued(s: State, a: Action)
    requires WellFormed(s) && Valued(s) && Enabled(s, a) && !a.SetPriority?
    ensures Valued(Apply(s, a))
  {
    hide Inserted, Without, HighestWaiting;
  }

  ghost predicate NoSets(run: seq<Action>) { forall k :: 0 <= k < |run| ==> !run[k].SetPriority? }

  lemma {:induction false} RunValued(s: State, run: seq<Action>)
    requires Possible(s, run) && Valued(s) && NoSets(run)
    ensures Valued(After(s, run))
    decreases |run|
  {
    hide Apply, Enabled, Valued;
    if run != [] {
      StepValued(s, run[0]);
      RunValued(Apply(s, run[0]), run[1..]);
    }
  }

  /** The priority of the task woken next, the lowest one if there is none. */
  function HeadPriority(s: State, i: nat): Level
    requires WellFormed(s) && i < |s.mutexes|
  {
    if s.mutexes[i].waiters == [] then 0 else PriorityOf(s, s.mutexes[i].waiters[0])
  }

  /** The running task is about to wait for mutex `i`, which `u` holds. */
  predicate BlocksOn(s: State, a: Action, i: nat, u: Task)
    requires Can(s, a)
  {
    a == Decide(false) && s.phase[s.current].m == i && s.mutexes[i].holder == HeldBy(u)
  }

  /** What becomes of a priority, from who holds how many mutexes: a task that blocks raises the holder
      to its own priority; giving the last mutex back, and only the last, returns the giver to its base
      priority; a caller that gives up leaves a holder with just that mutex at the greater of its base
      and the priority of the next in line, and every other task alone; nothing else changes one. */
  ghost predicate Charged(n: State, a: Action, m: State, u: Task)
    requires Can(n, a)
  {
    && u in n.tcb && u in m.tcb && m.tcb[u].base == n.tcb[u].base
    && m.tcb[u].priority ==
       if a == Decide(false) && BlocksOn(n, a, n.phase[n.current].m, u) then MaxPriority(PriorityOf(n, u), PriorityOf(n, n.current))
       else if a.Give? && u == n.current && HeldCount(n.mutexes, u) == 1 then n.tcb[u].base
       else if a.GiveUp? && n.mutexes[n.phase[n.current].m].holder == HeldBy(u) && HeldCount(n.mutexes, u) == 1 then
         MaxPriority(n.tcb[u].base, HeadPriority(n, n.phase[n.current].m))
       else PriorityOf(n, u)
  }

  lemma GiveUpCharged(s: State, u: Task)
    requires Accounts(s) && Valued(s) && Enabled(s, GiveUp) && u in s.tcb
    ensures Charged(s, GiveUp, Apply(s, GiveUp), u)
  {
    assert Books(s.tcb, s.mutexes, u);
    hide HeldCount, Lined, Inserted, Without;
  }

  lemma StepCharged(s: State, a: Action, u: Task)
    requires Accounts(s) && Valued(s) && Enabled(s, a) && !a.SetPriority? && u in s.tcb
    ensures Charged(s, a, Apply(s, a), u)
  {
    if a.GiveUp? {
      GiveUpCharged(s, u);
    } else {
      assert Books(s.tcb, s.mutexes, u);
      hide Inserted, Without, HeldCount, TakeBack, HighestWaiting, DisinheritAfterTimeout;
    }
  }

  /** In every run without vTaskPrioritySet, with any number of mutexes. */
  lemma PrioritiesExact(s: State, run: seq<Action>, a: Action, u: Task)
    requires Init(s) && Possible(s, run) && Can(After(s, run), a) && NoSets(run) && !a.SetPriority? && u in s.tcb
    ensures Charged(After(s, run), a, Apply(After(s, run), a), u)
  {
    InitAccounts(s);
    InitLined(s);
    RunAccounts(s, run);
    RunLined(s, run);
    RunValued(s, run);
    TasksStay(s, run);
    StepCharged(After(s, run), a, u);
  }

  /** A caller that gives up leaves the whole TCB of every task alone that does not hold exactly one
      mutex, and of every task that does not hold the mutex it gave up on; in every run, with priorities
      set at any time. */
  lemma GiveUpSpares(s: State, run: seq<Action>, u: Task)
    requires Init(s) && Possible(s, run) && Can(After(s, run), GiveUp) && u in s.tcb
    ensures var n := After(s, run);
            var m := Apply(n, GiveUp);
            && u in n.tcb && u in m.tcb
            && (HeldCount(n.mutexes, u) != 1 || n.mutexes[n.phase[n.current].m].holder != HeldBy(u) ==> m.tcb[u] == n.tcb[u])
  {
    InitAccounts(s);
    RunAccounts(s, run);
    TasksStay(s, run);
    assert Books(After(s, run).tcb, After(s, run).mutexes, u);
    hide HeldCount, HighestWaiting;
  }

  /** vTaskPrioritySet: the base priority is the one set; the priority in use follows, unless the task
      is inheriting more. Nobody else is touched. */
  lemma SetPriorityExact(s: State, run: seq<Action>, t: Task, p: Level, u: Task)
    requires Init(s) && Possible(s, run) && Can(After(s, run), SetPriority(t, p)) && u in s.tcb
    ensures var n := After(s, run);
            var m := Apply(n, SetPriority(t, p));
            && u in n.tcb && u in m.tcb
            && (u != t ==> m.tcb[u] == n.tcb[u])
            && (u == t ==> m.tcb[u].base == p)
            && (u == t && HeldCount(n.mutexes, u) == 0 ==> m.tcb[u].priority == p)
            && (u == t && n.tcb[u].priority > n.tcb[u].base ==> m.tcb[u].priority == MaxPriority(p, n.tcb[u].priority))
            && (u == t && n.tcb[u].priority == n.tcb[u].base ==> m.tcb[u].priority == p)
  {
    InitAccounts(s);
    RunAccounts(s, run);
    TasksStay(s, run);
    SetStep(After(s, run), t, p, u);
  }

  lemma SetStep(n: State, t: Task, p: Level, u: Task)
    requires Accounts(n) && Enabled(n, SetPriority(t, p)) && u in n.tcb
    ensures var m := Apply(n, SetPriority(t, p));
            && u in m.tcb
            && (u != t ==> m.tcb[u] == n.tcb[u])
            && (u == t ==> m.tcb[u].base == p)
            && (u == t && HeldCount(n.mutexes, u) == 0 ==> m.tcb[u].priority == p)
            && (u == t && n.tcb[u].priority > n.tcb[u].base ==> m.tcb[u].priority == MaxPriority(p, n.tcb[u].priority))
            && (u == t && n.tcb[u].priority == n.tcb[u].base ==> m.tcb[u].priority == p)
  {
    hide HeldCount;
    assert Books(n.tcb, n.mutexes, u);
    hide Accounts;
  }

  // How long a waiter can count on the holder.

  /** Task `w` waits for mutex `i`, and the holder runs at least at the priority of `w`. */
  ghost predicate Lends(s: State, i: nat, w: Task) {
    && WellFormed(s) && i < |s.mutexes| && w in s.mutexes[i].waiters && s.mutexes[i].holder.HeldBy?
    && PriorityOf(s, s.mutexes[i].holder.t) >= PriorityOf(s, w)
  }

  lemma TwoHeld(mutexes: seq<Mutex>, i: nat, j: nat, h: Task)
    requires i < |mutexes| && j < |mutexes| && i != j && mutexes[i].holder == HeldBy(h) && mutexes[j].holder == HeldBy(h)
    ensures HeldCount(mutexes, h) >= 2
  {
    var free := mutexes[i].(holder := Nobody);
    HeldCountUpdate(mutexes, i, free, h);
    HeldCountUpdate(mutexes[i := free], j, free, h);
  }

  lemma HoldsNothing(mutexes: seq<Mutex>, w: Task)
    requires HeldCount(mutexes, w) == 0
    ensures forall i :: 0 <= i < |mutexes| ==> mutexes[i].holder != HeldBy(w)
  {
    forall i | 0 <= i < |mutexes| ensures mutexes[i].holder != HeldBy(w) { HeldCountUpdate(mutexes, i, mutexes[i], w); }
  }

  lemma WaiterTcb(s: State, a: Action, w: Task)
    requires Lined(s) && Enabled(s, a) && !a.SetPriority? && w in s.tcb && s.phase[w].Waiting?
    requires forall i :: 0 <= i < |s.mutexes| ==> s.mutexes[i].holder != HeldBy(w)
    ensures w in Apply(s, a).tcb && Apply(s, a).tcb[w] == s.tcb[w]
  {
    hide Inserted, Without, HighestWaiting, Distinct, Inherit, Disinherit, DisinheritAfterTimeout;
  }

  /** A waiting task that holds nothing is left alone by everybody. */
  lemma WaiterKeeps(s: State, a: Action, w: Task)
    requires Accounts(s) && Lined(s) && Enabled(s, a) && !a.SetPriority?
    requires w in s.tcb && s.phase[w].Waiting? && HeldCount(s.mutexes, w) == 0
    ensures w in Apply(s, a).tcb && Apply(s, a).tcb[w] == s.tcb[w]
    ensures HeldCount(Apply(s, a).mutexes, w) == 0
  {
    HoldsNothing(s.mutexes, w);
    WaiterTcb(s, a, w);
    StepAccounts(s, a);
    hide Apply, Enabled, Lined, HeldCount, WellFormed;
    assert Books(s.tcb, s.mutexes, w) && Books(Apply(s, a).tcb, Apply(s, a).mutexes, w);
  }

  predicate Disturbs(s: State, a: Action, i: nat, w: Task)
    requires Can(s, a)
  {
    a == TimeOut(w) || a == Give(i) || (a.GiveUp? && s.phase[s.current].m == i)
  }

  lemma StillThere(s: State, a: Action, i: nat, w: Task)
    requires Lined(s) && Enabled(s, a) && i < |s.mutexes| && w in s.mutexes[i].waiters && !Disturbs(s, a, i, w)
    requires s.mutexes[i].count == 0
    ensures i < |Apply(s, a).mutexes| && w in Apply(s, a).mutexes[i].waiters && Apply(s, a).mutexes[i].holder == s.mutexes[i].holder
  {
    hide Distinct, HighestWaiting, Inherit, Disinherit, DisinheritAfterTimeout;
  }

  lemma StepLends(s: State, a: Action, i: nat, w: Task)
    requires Accounts(s) && Lined(s) && Valued(s) && Enabled(s, a) && !a.SetPriority?
    requires Lends(s, i, w) && HeldCount(s.mutexes, w) == 0 && !Disturbs(s, a, i, w)
    ensures Lends(Apply(s, a), i, w) && HeldCount(Apply(s, a).mutexes, w) == 0
  {
    var h := s.mutexes[i].holder.t;
    StillThere(s, a, i, w);
    WaiterKeeps(s, a, w);
    StepCharged(s, a, h);
    StepLined(s, a);
    if a.Give? && s.current == h { TwoHeld(s.mutexes, i, a.m, h); }
    if a.GiveUp? && s.mutexes[s.phase[s.current].m].holder == HeldBy(h) { TwoHeld(s.mutexes, i, s.phase[s.current].m, h); }
    hide Apply, Accounts, Lined, HeldCount, Valued;
  }

  ghost predicate Undisturbed(s: State, run: seq<Action>, i: nat, w: Task)
    requires Possible(s, run)
    decreases |run|
  {
    run == [] || (!Disturbs(s, run[0], i, w) && Undisturbed(Apply(s, run[0]), run[1..], i, w))
  }

  lemma {:induction false} RunLends(s: State, run: seq<Action>, i: nat, w: Task)
    requires Accounts(s) && Lined(s) && Valued(s) && Possible(s, run) && NoSets(run)
    requires Lends(s, i, w) && HeldCount(s.mutexes, w) == 0 && Undisturbed(s, run, i, w)
    ensures Lends(After(s, run), i, w)
    decreases |run|
  {
    hide Apply, Enabled, Accounts, Lined, Valued, Lends, HeldCount, Disturbs;
    if run != [] {
      StepLends(s, run[0], i, w);
      StepAccounts(s, run[0]);
      StepLined(s, run[0]);
      StepValued(s, run[0]);
      RunLends(Apply(s, run[0]), run[1..], i, w);
    }
  }

  lemma BlockLends(s: State)
    requires Accounts(s) && Lined(s) && Enabled(s, Decide(false)) && HeldCount(s.mutexes, s.current) == 0
    requires s.mutexes[s.phase[s.current].m].count == 0
    ensures var n := Apply(s, Decide(false)); Lends(n, s.phase[s.current].m, s.current) && HeldCount(n.mutexes, s.current) == 0
  {
    var i, w := s.phase[s.current].m, s.current;
    var n := Apply(s, Decide(false));
    StepAccounts(s, Decide(false));
    assert Books(s.tcb, s.mutexes, w) && Books(n.tcb, n.mutexes, w);
    assert n.mutexes[i].waiters == Inserted(n.tcb, s.mutexes[i].waiters, w);
    hide HeldCount, Inserted;
  }

  /** From the moment a task that holds nothing blocks on a mutex, the holder runs at least at its
      priority, whatever other mutexes are taken, given, waited for and given up on by anybody, until the
      mutex is given, the wait times out, or another waiter for the same mutex gives up. */
  lemma LendsWhileWaiting(s: State, before: seq<Action>, run: seq<Action>)
    requires Init(s) && Possible(s, before) && NoSets(before) && NoSets(run)
    requires var n := After(s, before);
             && Can(n, Decide(false)) && n.mutexes[n.phase[n.current].m].holder != Nobody && HeldCount(n.mutexes, n.current) == 0
             && Possible(Apply(n, Decide(false)), run)
             && Undisturbed(Apply(n, Decide(false)), run, n.phase[n.current].m, n.current)
    ensures var n := After(s, before);
            Lends(After(Apply(n, Decide(false)), run), n.phase[n.current].m, n.current)
  {
    var n := After(s, before);
    InitAccounts(s);
    InitLined(s);
    RunAccounts(s, before);
    RunLined(s, before);
    RunValued(s, before);
    StepAccounts(n, Decide(false));
    StepLined(n, Decide(false));
    StepValued(n, Decide(false));
    BlockLends(n);
    RunLends(Apply(n, Decide(false)), run, n.phase[n.current].m, n.current);
  }

  lemma GiveUpLends(n: State, i: nat, w: Task)
    requires Accounts(n) && Lined(n) && Valued(n) && Enabled(n, GiveUp) && i == n.phase[n.current].m
    requires Lends(n, i, w) && HeldCount(n.mutexes, w) == 0
    ensures var h := n.mutexes[i].holder.t;
            Lends(Apply(n, GiveUp), i, w) <==>
              HeldCount(n.mutexes, h) != 1 || MaxPriority(n.tcb[h].base, HeadPriority(n, i)) >= PriorityOf(n, w)
  {
    StepCharged(n, GiveUp, n.mutexes[i].holder.t);
    WaiterKeeps(n, GiveUp, w);
    assert Apply(n, GiveUp).mutexes[i].waiters == n.mutexes[i].waiters;
    StepLined(n, GiveUp);
    hide HeldCount, TakeBack, Accounts, Valued, HeadPriority, Distinct;
  }

  /** When another waiter for the same mutex gives up, the holder goes on running at least at the
      priority of a waiter that holds nothing iff it holds another mutex too, or its base priority or
      that of the next in line is high enough. */
  lemma GiveUpLendsIff(s: State, run: seq<Action>, w: Task)
    requires Init(s) && Possible(s, run) && NoSets(run) && Can(After(s, run), GiveUp)
    requires var n := After(s, run); Lends(n, n.phase[n.current].m, w) && HeldCount(n.mutexes, w) == 0
    ensures var n := After(s, run);
            var i := n.phase[n.current].m;
            var h := n.mutexes[i].holder.t;
            Lends(Apply(n, GiveUp), i, w) <==>
              HeldCount(n.mutexes, h) != 1 || MaxPriority(n.tcb[h].base, HeadPriority(n, i)) >= PriorityOf(n, w)
  {
    var n := After(s, run);
    var i := n.phase[n.current].m;
    InitAccounts(s);
    InitLined(s);
    RunAccounts(s, run);
    RunLined(s, run);
    RunValued(s, run);
    TasksStay(s, run);
    GiveUpLends(n, i, w);
  }

  /** The next in line need not be the most urgent waiter: its priority may have gone back since it
      joined, its own mutex having been given up on, and a list is not sorted again. Here task 4 waits at
      3 for the mutex that task 0 holds, and when task 3 gives up task 0 is left at the priority 2 of
      task 1. */
  lemma StaleHeadExample(s: State)
    requires s.tcb == map[0 := Tcb(4, 1, 1, 1), 1 := Tcb(2, 2, 1, 3), 3 := Tcb(4, 4, 0, 1), 4 := Tcb(3, 3, 0, 2)]
    requires s.phase == map[0 := Free, 1 := Waiting(0, true), 3 := GaveUp(0), 4 := Waiting(0, false)]
    requires s.mutexes == [Mutex(HeldBy(0), 0, [1, 4], {}), Mutex(HeldBy(1), 0, [], {})]
    requires s.ready == {0, 3} && s.current == 3 && !s.mustYield
    ensures WellFormed(s) && Lined(s) && Valued(s) && Enabled(s, GiveUp)
    ensures Lends(s, 0, 4) && !Lends(Apply(s, GiveUp), 0, 4)
  {
    assert HighestWaiting(s, 0) == 2;
    assert DisinheritAfterTimeout(s.tcb[0], 2).priority == 2;
    assert 4 in s.mutexes[0].waiters;
  }

  // Event lists are the lists of list.c.

  function EventValues(tcb: map<Task, Tcb>, list: seq<Task>): (v: seq<nat>)
    requires forall w :: w in list ==> w in tcb
    ensures |v| == |list|
  {
    seq(|list|, i requires 0 <= i < |list| => tcb[list[i]].eventValue)
  }

  /** A task joins an event list where vListInsert puts it: behind all that are at least as urgent. */
  lemma {:induction false} JoinsLikeListInsert(tcb: map<Task, Tcb>, list: seq<Task>, t: Task)
    requires t in tcb && forall w :: w in list ==> w in tcb
    ensures Inserted(tcb, list, t) == Rings.PutAt(list, Rings.FirstAbove(EventValues(tcb, list), tcb[t].eventValue), t)
  {
    var values := EventValues(tcb, list);
    if list == [] || tcb[list[0]].eventValue > tcb[t].eventValue {
      assert Rings.FirstAbove(values, tcb[t].eventValue) == 0;
    } else {
      JoinsLikeListInsert(tcb, list[1..], t);
      assert values[1..] == EventValues(tcb, list[1..]);
      PutBehind(list, Rings.FirstAbove(values[1..], tcb[t].eventValue), t);
    }
  }

  lemma PutBehind(list: seq<Task>, at: nat, t: Task)
    requires list != [] && at <= |list| - 1
    ensures Rings.PutAt(list, 1 + at, t) == [list[0]] + Rings.PutAt(list[1..], at, t)
  {
  }
}
