/** How the calls of queue.c run and end: what a task does from its first attempt to its return,
    whatever the other tasks and the interrupts do in between. */
module QueueCalls {
  import opened Sequences
  import opened QueueStorage
  import opened QueueCore
  import opened QueueProtocol

  // What a task asked for.

  /** The call a task made last, and whether it has since looked at the clock after its deadline. */
  datatype Story = NoCall | Made(call: Call, expired: bool)

  function StoryOf(run: seq<Action>, t: Task): Story {
    if run == [] then NoCall else
      var before := StoryOf(run[..|run| - 1], t);
      match run[|run| - 1]
      case Start(u, call) => if u == t then Made(call, false) else before
      case StartRestricted(u) => if u == t then Made(Receive, false) else before
      case Look(u, expired) => if u == t && expired && before.Made? then Made(before.call, true) else before
      case _ => before
  }

  predicate GivesUp(p: Phase) {
    p.Final? || ((p.Unlocking? || p.Unlocked? || p.Resuming?) && p.next == GiveUp)
  }

  /** A task is inside the call it made last, and gives up only after its deadline. */
  predicate Tells(p: Phase, story: Story) {
    !p.Idle? ==> story.Made? && p.call == story.call && (GivesUp(p) ==> story.expired) && (p.Final? ==> Reads(p.call))
  }

  lemma {:induction false} Extend(s: State, run: seq<Action>, a: Action)
    requires Possible(s, run + [a])
    ensures Possible(s, run) && Enabled(After(s, run), a) && After(s, run + [a]) == Apply(After(s, run), a)
    decreases |run|
  {
    hide Apply, Enabled;
    if run == [] {
      assert run + [a] == [a];
      assert [a][1..] == [];
    } else {
      assert (run + [a])[1..] == run[1..] + [a];
      Extend(Apply(s, run[0]), run[1..], a);
    }
  }

  lemma StepTells(s: State, a: Action, t: Task, story: Story)
    requires Enabled(s, a) && t in s.phase && Tells(s.phase[t], story)
    ensures t in Apply(s, a).phase
    ensures Tells(Apply(s, a).phase[t],
                  match a
                  case Start(u, call) => if u == t then Made(call, false) else story
                  case StartRestricted(u) => if u == t then Made(Receive, false) else story
                  case Look(u, expired) => if u == t && expired && story.Made? then Made(story.call, true) else story
                  case _ => story)
  {
  }

  /** In every reachable state a task is inside the very call it made last. */
  lemma {:induction false} CallsAreKept(s: State, run: seq<Action>, t: Task)
    requires Init(s) && Possible(s, run) && t in s.phase
    ensures t in After(s, run).phase && Tells(After(s, run).phase[t], StoryOf(run, t))
    decreases |run|
  {
    if run != [] {
      var before, a := run[..|run| - 1], run[|run| - 1];
      assert run == before + [a];
      Extend(s, before, a);
      CallsAreKept(s, before, t);
      StepTells(After(s, before), a, t, StoryOf(before, t));
    }
  }

  // How a call ends.

  predicate Ends(s: State, a: Action, t: Task)
    requires Enabled(s, a)
  {
    t in s.phase && t in Apply(s, a).phase && !s.phase[t].Idle? && Apply(s, a).phase[t].Idle?
  }

  predicate Reading(story: Story) { story.Made? && Reads(story.call) }

  /** The queue has nothing for the call: no item for a reader, no room for a sender. */
  predicate NothingFor(q: Queue, call: Call) {
    if Reads(call) then q.items == [] else |q.items| >= q.length && call.position != Overwrite
  }

  /** In every run a call ends by an attempt that the queue has something for; or without, by an
      attempt that was not to block, with the queue having nothing for it; or after a look past its
      deadline, a reader then with the queue empty. */
  lemma EndsRight(s: State, run: seq<Action>, a: Action, t: Task)
    requires Init(s) && Possible(s, run) && Enabled(After(s, run), a) && Ends(After(s, run), a, t)
    ensures var q, story := After(s, run).q, StoryOf(run, t);
            && story.Made?
            && if a.Attempt? then a.t == t && (!NothingFor(q, story.call) || !a.block)
               else story.expired && (Reads(story.call) ==> q.items == [])
  {
    InitTasks(s, run, t);
    CallsAreKept(s, run, t);
  }

  /** No task comes or goes in a run. */
  lemma {:induction false} InitTasks(s: State, run: seq<Action>, t: Task)
    requires Possible(s, run)
    ensures t in After(s, run).phase <==> t in s.phase
    decreases |run|
  {
    if run != [] { InitTasks(Apply(s, run[0]), run[1..], t); }
  }

  /** An attempt ends the call iff the queue has something for it or it is not to block. */
  lemma AttemptEndsIff(s: State, run: seq<Action>, t: Task, block: bool)
    requires Init(s) && Possible(s, run) && Enabled(After(s, run), Attempt(t, block))
    ensures StoryOf(run, t).Made?
    ensures Ends(After(s, run), Attempt(t, block), t) <==> !NothingFor(After(s, run).q, StoryOf(run, t).call) || !block
  {
    InitTasks(s, run, t);
    CallsAreKept(s, run, t);
    RunKeepsInv(s, run);
  }

  /** What sending `item` makes of the queued ones: last, first, or alone. */
  predicate Placed(before: seq<Item>, after: seq<Item>, item: Item, position: Position) {
    match position
    case SendToBack => |after| > 0 && after[|after| - 1] == item && after[..|after| - 1] == before
    case SendToFront => |after| > 0 && after[0] == item && after[1..] == before
    case Overwrite => after == [item]
  }

  /** What an attempt at `call` makes of the queued items. */
  predicate Attempted(before: seq<Item>, after: seq<Item>, call: Call) {
    match call
    case Receive => before != [] && after == before[1..]
    case Peek => after == before
    case Send(item, position) => Placed(before, after, item, position)
  }

  predicate MovedAsAsked(q: Queue, after: seq<Item>, a: Action, story: Story) {
    match a
    case InterruptSend(item, position) => Placed(q.items, after, item, position)
    case InterruptReceive => q.items != [] && after == q.items[1..]
    case Attempt(_, _) => story.Made? && if NothingFor(q, story.call) then after == q.items else Attempted(q.items, after, story.call)
    case _ => after == q.items
  }

  /** Every step of every run moves the items that its caller asked for, and no others: a receive takes
      the first one, a peek none, a send puts its own where the caller said, and no other step touches
      the items. */
  lemma ItemsMoveAsAsked(s: State, run: seq<Action>, a: Action)
    requires Init(s) && Possible(s, run) && Enabled(After(s, run), a)
    ensures var n := After(s, run);
            MovedAsAsked(n.q, Apply(n, a).q.items, a, if a.Attempt? then StoryOf(run, a.t) else NoCall)
  {
    if a.Attempt? {
      InitTasks(s, run, a.t);
      CallsAreKept(s, run, a.t);
    }
    RunKeepsInv(s, run);
    var story := if a.Attempt? then StoryOf(run, a.t) else NoCall;
    assert |After(s, run).q.items| <= After(s, run).q.length;
    hide Inv, Init, Possible, StoryOf, After, MovedAsAsked;
    ItemsStep(After(s, run), a, story);
  }

  lemma ItemsStep(s: State, a: Action, story: Story)
    requires Enabled(s, a) && |s.q.items| <= s.q.length
    requires a.Attempt? ==> a.t in s.phase && Tells(s.phase[a.t], story)
    ensures MovedAsAsked(s.q, Apply(s, a).q.items, a, story)
  {
    hide Woken, Unwoken, Without;
  }

  // What a task does itself.

  /** Time-outs and interrupts happen to a task. */
  predicate Does(a: Action, t: Task) {
    !a.TimeOut? && !a.InterruptSend? && !a.InterruptReceive? && a.t == t
  }

  datatype Move = Attempts | Suspends | Locks | Looks | Joins | UnlocksTx | UnlocksRx | Resumes | LooksAgain | Starts

  function MoveOf(a: Action): Move {
    match a
    case Attempt(_, _) => Attempts
    case SuspendAll(_) => Suspends
    case LockIt(_) => Locks
    case Look(_, _) => Looks
    case Place(_, _) => Move.Joins
    case UnlockFirst(_) => UnlocksTx
    case UnlockSecond(_) => UnlocksRx
    case ResumeAll(_) => Resumes
    case LastLook(_) => LooksAgain
    case _ => Starts
  }

  function Moves(run: seq<Action>, t: Task): seq<Move> {
    if run == [] then [] else (if Does(run[0], t) then [MoveOf(run[0])] else []) + Moves(run[1..], t)
  }

  /** What a task in phase `p` does until its next look, its next attempt or the end of its call, if
      a queue that it has given up reading from stays empty. */
  function Ahead(p: Phase): seq<Move> {
    match p
    case Idle => []
    case Try(_) => [Attempts]
    case Missed(_) => [Suspends, Locks, Looks]
    case Suspended(_) => [Locks, Looks]
    case Locked(_) => [Looks]
    case Committed(_) => [Move.Joins, UnlocksTx, UnlocksRx, Resumes, Attempts]
    case Unlocking(call, next) => [UnlocksTx, UnlocksRx, Resumes] + LastMove(call, next)
    case Unlocked(call, next) => [UnlocksRx, Resumes] + LastMove(call, next)
    case Resuming(call, next) => [Resumes] + LastMove(call, next)
    case Final(_) => [LooksAgain]
  }

  function LastMove(call: Call, next: Next): seq<Move> {
    if next != GiveUp then [Attempts] else if Reads(call) then [LooksAgain] else []
  }

  ghost predicate StaysEmpty(s: State, run: seq<Action>)
    requires Possible(s, run)
    decreases |run|
  {
    s.q.items == [] && (run == [] || StaysEmpty(Apply(s, run[0]), run[1..]))
  }

  predicate Agree(moves: seq<Move>, path: seq<Move>) {
    forall i :: 0 <= i < |moves| && i < |path| ==> moves[i] == path[i]
  }

  lemma OthersDoNotMove(s: State, a: Action, t: Task)
    requires Enabled(s, a) && t in s.phase && !Does(a, t)
    ensures t in Apply(s, a).phase && Apply(s, a).phase[t] == s.phase[t]
  {
    hide Proceed, WakesReaders, WakesSenders, UnlockTx, UnlockRx, Woken, Lock;
  }

  lemma MoveStep(s: State, a: Action, t: Task)
    requires Enabled(s, a) && t in s.phase && !s.phase[t].Idle? && Does(a, t)
    requires s.phase[t].Final? ==> Reads(s.phase[t].call)
    requires GivesUp(s.phase[t]) && Reads(s.phase[t].call) ==> s.q.items == []
    ensures t in Apply(s, a).phase
    ensures var p, n := s.phase[t], Apply(s, a).phase[t];
            && Ahead(p) != [] && MoveOf(a) == Ahead(p)[0]
            && (|Ahead(p)| > 1 ==> Ahead(n) == Ahead(p)[1..] && !n.Idle? && (GivesUp(n) <==> GivesUp(p)) && n.call == p.call && (n.Final? ==> Reads(n.call)))
            && (|Ahead(p)| == 1 && GivesUp(p) ==> n.Idle?)
  {
    hide Proceed, WakesReaders, WakesSenders, UnlockTx, UnlockRx, Woken, Lock, Reads, CanProceed;
    var p := s.phase[t];
    FirstMove(LastMove(p.call, if NextKnown(p) then p.next else Block));
  }

  predicate NextKnown(p: Phase) { p.Unlocking? || p.Unlocked? || p.Resuming? }

  lemma FirstMove(rest: seq<Move>)
    ensures ([UnlocksTx, UnlocksRx, Resumes] + rest)[1..] == [UnlocksRx, Resumes] + rest
    ensures ([UnlocksRx, Resumes] + rest)[1..] == [Resumes] + rest
    ensures ([Resumes] + rest)[1..] == rest
  {
  }

  lemma AheadNotEmpty(p: Phase)
    requires !p.Idle?
    ensures Ahead(p) != []
  {
  }

  lemma EmptyOn(s: State, run: seq<Action>)
    requires Possible(s, run) && StaysEmpty(s, run)
    ensures s.q.items == [] && (run != [] ==> StaysEmpty(Apply(s, run[0]), run[1..]))
  {
  }

  lemma AgreeOn(a: Move, moves: seq<Move>, path: seq<Move>)
    requires path != [] && path[0] == a && Agree(moves, path[1..])
    ensures Agree([a] + moves, path)
  {
  }

  lemma {:induction false} FollowsAhead(s: State, run: seq<Action>, t: Task)
    requires Possible(s, run) && t in s.phase && !s.phase[t].Idle?
    requires s.phase[t].Final? ==> Reads(s.phase[t].call)
    requires GivesUp(s.phase[t]) && Reads(s.phase[t].call) ==> StaysEmpty(s, run)
    ensures t in After(s, run).phase
    ensures var own, path := Moves(run, t), Ahead(s.phase[t]);
            && Agree(own, path)
            && (|own| < |path| ==> !After(s, run).phase[t].Idle?)
            && (|own| == |path| && GivesUp(s.phase[t]) ==> After(s, run).phase[t].Idle?)
    decreases |run|
  {
    AheadNotEmpty(s.phase[t]);
    if GivesUp(s.phase[t]) && Reads(s.phase[t].call) { EmptyOn(s, run); }
    hide Apply, Enabled, MoveOf, Does, Ahead, GivesUp, Reads, Agree, StaysEmpty;
    if run == [] {
      assert Agree([], Ahead(s.phase[t])) by { NothingDisagrees(Ahead(s.phase[t])); }
    } else {
      var a, rest, p := run[0], run[1..], s.phase[t];
      var n := Apply(s, a);
      if !Does(a, t) {
        OthersDoNotMove(s, a, t);
        FollowsAhead(n, rest, t);
      } else {
        MoveStep(s, a, t);
        if |Ahead(p)| > 1 {
          FollowsAhead(n, rest, t);
        } else {
          InitTasks(n, rest, t);
          StaysIdle(n, rest, t);
          assert Ahead(p)[1..] == [];
          assert Agree(Moves(rest, t), []) by { EverythingAgrees(Moves(rest, t)); }
        }
        AgreeOn(MoveOf(a), Moves(rest, t), Ahead(p));
      }
    }
  }

  lemma NothingDisagrees(path: seq<Move>)
    ensures Agree([], path)
  {
  }

  lemma EverythingAgrees(moves: seq<Move>)
    ensures Agree(moves, [])
  {
  }

  /** A task outside a call begins by starting one. */
  lemma {:induction false} StaysIdle(s: State, run: seq<Action>, t: Task)
    requires Possible(s, run) && t in s.phase
    ensures t in After(s, run).phase
    ensures s.phase[t].Idle? && Moves(run, t) == [] ==> After(s, run).phase[t].Idle?
    decreases |run|
  {
    if run != [] { StaysIdle(Apply(s, run[0]), run[1..], t); }
  }

  /** A look past the deadline: the task releases the lock and resumes the scheduler, a reader looks
      once more, and if the queue stays empty that ends its call, without another attempt. */
  lemma AfterExpiredLook(s: State, before: seq<Action>, t: Task, run: seq<Action>)
    requires Init(s) && Possible(s, before) && Enabled(After(s, before), Look(t, true))
    requires var n := Apply(After(s, before), Look(t, true));
             Possible(n, run) && (Reading(StoryOf(before, t)) ==> StaysEmpty(n, run))
    ensures var n, own := After(Apply(After(s, before), Look(t, true)), run), Moves(run, t);
            var path := [UnlocksTx, UnlocksRx, Resumes] + if Reading(StoryOf(before, t)) then [LooksAgain] else [];
            && t in n.phase && Agree(own, path)
            && (|own| < |path| ==> !n.phase[t].Idle?)
            && (|own| == |path| ==> n.phase[t].Idle?)
  {
    InitTasks(s, before, t);
    CallsAreKept(s, before, t);
    FollowsAhead(Apply(After(s, before), Look(t, true)), run, t);
  }

  lemma LookInTime(s: State, t: Task)
    requires Shape(s) && Enabled(s, Look(t, false))
    ensures var p := Apply(s, Look(t, false)).phase[t];
            && !GivesUp(p) && !p.Idle?
            && Ahead(p) == (if NothingFor(s.q, s.phase[t].call) then [Move.Joins] else []) + [UnlocksTx, UnlocksRx, Resumes, Attempts]
  {
  }

  /** A look in time: if the queue has nothing for it the task joins the event list before it
      releases the lock, otherwise it does not; either way its call goes on to another attempt. */
  lemma AfterLookInTime(s: State, before: seq<Action>, t: Task, run: seq<Action>)
    requires Init(s) && Possible(s, before) && Enabled(After(s, before), Look(t, false))
    requires Possible(Apply(After(s, before), Look(t, false)), run)
    ensures StoryOf(before, t).Made?
    ensures var n, own := After(Apply(After(s, before), Look(t, false)), run), Moves(run, t);
            var joins := if NothingFor(After(s, before).q, StoryOf(before, t).call) then [Move.Joins] else [];
            var path := joins + [UnlocksTx, UnlocksRx, Resumes, Attempts];
            && t in n.phase && Agree(own, path)
            && (|own| < |path| ==> !n.phase[t].Idle?)
  {
    InitTasks(s, before, t);
    CallsAreKept(s, before, t);
    RunKeepsInv(s, before);
    LookInTime(After(s, before), t);
    hide Ahead, Apply, Enabled, Init, Inv, NothingFor;
    FollowsAhead(Apply(After(s, before), Look(t, false)), run, t);
  }

  /** The last look of a timed-out reader, if it finds an item after all: another attempt comes
      before the call can end. */
  lemma AfterLuckyLastLook(s: State, t: Task, run: seq<Action>)
    requires Enabled(s, LastLook(t)) && s.q.items != []
    requires Possible(Apply(s, LastLook(t)), run)
    ensures var n, own := After(Apply(s, LastLook(t)), run), Moves(run, t);
            && t in n.phase
            && (own == [] ==> !n.phase[t].Idle?)
            && (own != [] ==> own[0] == Attempts)
  {
    FollowsAhead(Apply(s, LastLook(t)), run, t);
  }

  ghost predicate CanMove(s: State, t: Task) { exists a :: Enabled(s, a) && Does(a, t) }

  /** Nothing but being blocked, or another task having the scheduler suspended, keeps a task from
      going on with its call. */
  lemma CanGoOn(s: State, run: seq<Action>, t: Task)
    requires Init(s) && Possible(s, run) && t in After(s, run).phase && !After(s, run).phase[t].Idle?
    ensures var n := After(s, run);
            CanMove(n, t) <==> (n.holder == NoOne && !Listed(n, t)) || n.holder == Holder.Task(t)
  {
    RunKeepsInv(s, run);
    var n := After(s, run);
    var p := n.phase[t];
    var a := match p
             case Try(_) => Attempt(t, true)
             case Missed(_) => SuspendAll(t)
             case Suspended(_) => LockIt(t)
             case Locked(_) => Look(t, true)
             case Committed(_) => Place(t, 0)
             case Unlocking(_, _) => UnlockFirst(t)
             case Unlocked(_, _) => UnlockSecond(t)
             case Resuming(_, _) => ResumeAll(t)
             case _ => LastLook(t);
    assert Does(a, t);
    assert (n.holder == NoOne && !Listed(n, t)) || n.holder == Holder.Task(t) ==> Enabled(n, a);
  }

  // Waiting in line.

  /** The tasks woken and not yet back, then those on the event list, next one first. */
  function Line(s: State, reading: bool): seq<Task> {
    if reading then s.wokenReaders + s.q.receivers else s.wokenSenders + s.q.senders
  }

  predicate Before(line: seq<Task>, u: Task, v: Task) {
    line != [] && ((line[0] == u && v in line[1..]) || Before(line[1..], u, v))
  }

  lemma {:induction false} BeforeConcat(a: seq<Task>, b: seq<Task>, u: Task, v: Task)
    ensures Before(a + b, u, v) <==> Before(a, u, v) || (u in a && v in b) || Before(b, u, v)
  {
    if a == [] {
      assert a + b == b;
    } else {
      assert (a + b)[1..] == a[1..] + b;
      BeforeConcat(a[1..], b, u, v);
    }
  }

  lemma {:induction false} BeforeWithout(line: seq<Task>, x: Task, u: Task, v: Task)
    requires x != u && x != v && Before(line, u, v)
    ensures Before(Without(line, x), u, v)
  {
    assert line == [line[0]] + line[1..];
    var rest := Without(line[1..], x);
    if Before(line[1..], u, v) { BeforeWithout(line[1..], x, u, v); }
    BeforeConcat(if line[0] == x then [] else [line[0]], rest, u, v);
  }

  lemma BeforeAround(a: seq<Task>, b: seq<Task>, t: Task, u: Task, v: Task)
    requires Before(a + b, u, v)
    ensures Before(a + ([t] + b), u, v)
  {
    BeforeConcat(a, b, u, v);
    BeforeConcat([t], b, u, v);
    BeforeConcat(a, [t] + b, u, v);
  }

  lemma WithoutInOne(a: seq<Task>, b: seq<Task>, x: Task, u: Task, v: Task)
    requires x != u && x != v && Before(a + b, u, v)
    ensures Before(Without(a, x) + b, u, v) && Before(a + Without(b, x), u, v)
  {
    BeforeConcat(a, b, u, v);
    BeforeConcat(Without(a, x), b, u, v);
    BeforeConcat(a, Without(b, x), u, v);
    if Before(a, u, v) { BeforeWithout(a, x, u, v); }
    if Before(b, u, v) { BeforeWithout(b, x, u, v); }
  }

  /** What can take a task out of line: its own attempt, or a time-out. */
  predicate Leaves(a: Action, t: Task) { (a.Attempt? || a.TimeOut?) && a.t == t }

  lemma WakeLine(woken: seq<Task>, list: seq<Task>, count: int)
    ensures (woken + Woken(list, count)) + Unwoken(list, count) == woken + list
  {
    WakeSomeKeepsOrder(Side(0, woken, 0, list), count, 0, 0);
  }

  lemma LineStep(s: State, a: Action, reading: bool, u: Task, v: Task)
    requires Enabled(s, a) && !Leaves(a, u) && !Leaves(a, v) && Before(Line(s, reading), u, v)
    ensures Before(Line(Apply(s, a), reading), u, v)
  {
    hide Woken, Unwoken, Before;
    var woken, list := if reading then s.wokenReaders else s.wokenSenders, if reading then s.q.receivers else s.q.senders;
    assert woken + [] == woken;
    match a
    case Attempt(t, _) =>
      WithoutInOne(woken, list, t, u, v);
      WakeLine(Without(woken, t), list, 1);
      assert Without(woken, t) + [] == Without(woken, t);
    case Place(t, at) =>
      if Reads(s.phase[t].call) == reading {
        assert woken + list == (woken + list[..at]) + list[at..];
        BeforeAround(woken + list[..at], list[at..], t, u, v);
        assert woken + (list[..at] + [t] + list[at..]) == (woken + list[..at]) + ([t] + list[at..]);
      }
    case TimeOut(t) => WithoutInOne(woken, list, t, u, v);
    case UnlockFirst(_) => WakeLine(woken, list, s.q.txLock);
    case UnlockSecond(_) => WakeLine(woken, list, s.q.rxLock);
    case _ => WakeLine(woken, list, 1);
  }

  predicate Stays(run: seq<Action>, t: Task) { forall i :: 0 <= i < |run| ==> !Leaves(run[i], t) }

  lemma {:induction false} LineRun(s: State, run: seq<Action>, reading: bool, u: Task, v: Task)
    requires Possible(s, run) && Stays(run, u) && Stays(run, v) && Before(Line(s, reading), u, v)
    ensures Before(Line(After(s, run), reading), u, v)
    decreases |run|
  {
    hide Apply, Enabled, Line, Before;
    if run != [] {
      LineStep(s, run[0], reading, u, v);
      LineRun(Apply(s, run[0]), run[1..], reading, u, v);
    }
  }

  /** Nobody jumps the queue: as long as two waiting tasks neither time out nor are back from being
      woken, the one woken first is the one that was ahead. */
  lemma WokenInOrder(s: State, before: seq<Action>, run: seq<Action>, u: Task, v: Task)
    requires Init(s) && Possible(s, before) && Possible(After(s, before), run) && Stays(run, u) && Stays(run, v)
    ensures var m, n := After(s, before), After(After(s, before), run);
            && (Before(Line(m, true), u, v) && v in n.wokenReaders ==> u in n.wokenReaders)
            && (Before(Line(m, false), u, v) && v in n.wokenSenders ==> u in n.wokenSenders)
  {
    var m := After(s, before);
    RunKeepsInv(s, before);
    RunKeepsInv(m, run);
    var n := After(m, run);
    if Before(Line(m, true), u, v) {
      LineRun(m, run, true, u, v);
      InFront(n.wokenReaders, n.q.receivers, u, v);
    }
    if Before(Line(m, false), u, v) {
      LineRun(m, run, false, u, v);
      InFront(n.wokenSenders, n.q.senders, u, v);
    }
  }

  lemma InFront(a: seq<Task>, b: seq<Task>, u: Task, v: Task)
    requires Distinct(a + b) && Before(a + b, u, v)
    ensures v in a ==> u in a
  {
    DistinctParts(a, b);
    BeforeConcat(a, b, u, v);
    if Before(b, u, v) { BothIn(b, u, v); }
    if Before(a, u, v) { BothIn(a, u, v); }
  }

  lemma {:induction false} BothIn(line: seq<Task>, u: Task, v: Task)
    requires Before(line, u, v)
    ensures u in line && v in line
  {
    if Before(line[1..], u, v) { BothIn(line[1..], u, v); }
  }

  lemma InLineStep(s: State, a: Action, reading: bool, t: Task)
    requires Enabled(s, a) && !Leaves(a, t) && t in Line(s, reading)
    ensures t in Line(Apply(s, a), reading)
  {
    hide Woken, Unwoken;
    var woken, list := if reading then s.wokenReaders else s.wokenSenders, if reading then s.q.receivers else s.q.senders;
    assert woken + [] == woken;
    match a
    case Attempt(u, _) => WakeLine(Without(woken, u), list, 1);
    case Place(u, at) => if Reads(s.phase[u].call) == reading { assert list == list[..at] + list[at..]; }
    case UnlockFirst(_) => WakeLine(woken, list, s.q.txLock);
    case UnlockSecond(_) => WakeLine(woken, list, s.q.rxLock);
    case _ => WakeLine(woken, list, 1);
  }

  lemma {:induction false} InLineRun(s: State, run: seq<Action>, reading: bool, t: Task)
    requires Possible(s, run) && Stays(run, t) && t in Line(s, reading)
    ensures t in Line(After(s, run), reading)
    decreases |run|
  {
    hide Apply, Enabled, Line;
    if run != [] {
      InLineStep(s, run[0], reading, t);
      InLineRun(Apply(s, run[0]), run[1..], reading, t);
    }
  }

  /** A task that has joined an event list waits there until it is woken, or its block time is over. */
  lemma JoinedWaits(s: State, t: Task, at: nat, run: seq<Action>)
    requires Enabled(s, Place(t, at)) && Possible(Apply(s, Place(t, at)), run) && Stays(run, t)
    ensures t in Line(After(Apply(s, Place(t, at)), run), Reads(s.phase[t].call))
  {
    InLineRun(Apply(s, Place(t, at)), run, Reads(s.phase[t].call), t);
  }

  lemma {:induction false} StaysUnlisted(s: State, t: Task, run: seq<Action>)
    requires Possible(s, run) && !Listed(s, t) && forall i :: 0 <= i < |run| ==> !(run[i].Place? && run[i].t == t)
    ensures !Listed(After(s, run), t)
    decreases |run|
  {
    if run != [] { StaysUnlisted(Apply(s, run[0]), t, run[1..]); }
  }

  /** Once its block time is over a task is on no event list, until it joins one again. */
  lemma TimedOutLeaves(s: State, t: Task, run: seq<Action>)
    requires Enabled(s, TimeOut(t)) && Possible(Apply(s, TimeOut(t)), run)
    requires forall i :: 0 <= i < |run| ==> !(run[i].Place? && run[i].t == t)
    ensures !Listed(After(Apply(s, TimeOut(t)), run), t)
  {
    StaysUnlisted(Apply(s, TimeOut(t)), t, run);
  }

  // No wake-up without a reason.

  /** How many tasks a step takes off an event list to wake them. */
  function Gained(s: State, a: Action, reading: bool): int
    requires Enabled(s, a)
  {
    if a.Place? || a.TimeOut? then 0
    else if reading then |s.q.receivers| - |Apply(s, a).q.receivers|
    else |s.q.senders| - |Apply(s, a).q.senders|
  }

  ghost function WakeUps(s: State, run: seq<Action>, reading: bool): int
    requires Possible(s, run)
    decreases |run|
  {
    if run == [] then 0 else Gained(s, run[0], reading) + WakeUps(Apply(s, run[0]), run[1..], reading)
  }

  /** What gives a reader a reason to wake: an item sent, or left there by a peek; and a sender: an item
      taken. */
  predicate Reason(s: State, a: Action, reading: bool)
    requires Enabled(s, a)
  {
    match a
    case Attempt(t, _) => CanProceed(s.q, s.phase[t].call) && (reading <==> !s.phase[t].call.Receive?)
    case InterruptSend(_, _) => reading
    case InterruptReceive => !reading
    case _ => false
  }

  ghost function Reasons(s: State, run: seq<Action>, reading: bool): nat
    requires Possible(s, run)
    decreases |run|
  {
    if run == [] then 0 else (if Reason(s, run[0], reading) then 1 else 0) + Reasons(Apply(s, run[0]), run[1..], reading)
  }

  function LockCount(s: State, reading: bool): int { Max(if reading then s.q.txLock else s.q.rxLock, 0) }

  lemma StepEarns(s: State, a: Action, reading: bool)
    requires Enabled(s, a)
    ensures Gained(s, a, reading) + LockCount(Apply(s, a), reading)
            <= LockCount(s, reading) + if Reason(s, a, reading) then 1 else 0
  {
    hide Without, Sent;
  }

  /** In every run no more readers are woken than items have been sent or peeked at, and no more
      senders than items have been taken, each counted once, at once or through the lock count. */
  lemma {:induction false} WakeUpsAreEarned(s: State, run: seq<Action>, reading: bool)
    requires Possible(s, run)
    ensures WakeUps(s, run, reading) + LockCount(After(s, run), reading) <= LockCount(s, reading) + Reasons(s, run, reading)
    decreases |run|
  {
    hide Apply, Enabled, Gained, Reason, LockCount;
    if run != [] {
      StepEarns(s, run[0], reading);
      WakeUpsAreEarned(Apply(s, run[0]), run[1..], reading);
    }
  }
}
