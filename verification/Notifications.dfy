/** Task notifications used as a counting semaphore (freertos/tasks.c): one task takes with a block
    time while other tasks and interrupts give, as atomic steps in every interleaving. */
module Notifications {
  import opened Ticks

  /** ucNotifyState. */
  datatype NotifyState = NotWaiting | Waiting | Received

  /** Where the taking task is inside ulTaskGenericNotifyTake. */
  datatype Phase =
    | Outside
    | Found                      // has found the count at 0, and is about to suspend the scheduler
    | Suspended                  // about to look again in a critical section
    | Marked                     // has marked itself as waiting, and is about to leave the ready list
    | Resuming(block: bool)      // about to resume the scheduler
    | Last                       // blocked, or about to enter the last critical section

  /** Who has the scheduler suspended. */
  datatype Holder = NoOne | Taker | Other

  /** `value` is ulNotifiedValue. `delayed` says that the state list item is on a list of blocked
      tasks, `linked` how often the event list item has been put on xPendingReadyList since it was
      last taken off. `clear` and `block` are what the present call asks for, and `expired` says that
      its block time has run out. The last three are history: the gives, what takes have removed,
      and the gives that found the count at its maximum. */
  datatype State = State(
    value: Tick, state: NotifyState, phase: Phase, clear: bool, block: bool,
    delayed: bool, linked: nat, holder: Holder, expired: bool,
    gives: nat, taken: nat, wraps: nat)

  datatype Action =
    | Take(clear: bool, block: bool)
    | SuspendAll
    | Mark
    | Delay
    | ResumeAll
    | TakeLast
    | Give          // from a task
    | GiveFromISR
    | TimeOut
    | OtherSuspends
    | OtherResumes

  /** The taking task runs when it is not blocked and no other task has the scheduler suspended. */
  predicate CanRun(s: State) { !s.delayed && s.holder != Other }

  predicate Enabled(s: State, a: Action) {
    match a
    case Take(_, _) => CanRun(s) && s.phase.Outside? && s.holder == NoOne
    case SuspendAll => CanRun(s) && s.phase.Found? && s.holder == NoOne
    case Mark => CanRun(s) && s.phase.Suspended?
    case Delay => CanRun(s) && s.phase.Marked?
    case ResumeAll => s.holder == Taker && s.phase.Resuming?
    case TakeLast => CanRun(s) && s.phase.Last? && s.holder == NoOne
    case Give => s.holder != Taker
    case GiveFromISR => true
    case TimeOut => s.holder == NoOne && s.delayed
    case OtherSuspends => s.holder == NoOne
    case OtherResumes => s.holder == Other
  }

  /** The count goes up by one, and wraps like a uint32_t; a task that is marked is unblocked, at
      once or, from an interrupt while the scheduler is suspended, when it is resumed. */
  function Given(s: State, hold: bool): State {
    var n := s.(value := Plus(s.value, 1), state := Received, gives := s.gives + 1,
                wraps := s.wraps + if s.value == MAX_DELAY then 1 else 0);
    if s.state != Waiting then n
    else if hold then n.(linked := s.linked + 1)
    else n.(delayed := false)
  }

  /** The first loop of xTaskResumeAll, for this task. */
  function Drained(s: State): State {
    if s.linked > 0 then s.(linked := 0, delayed := false) else s
  }

  function Apply(s: State, a: Action): State
    requires Enabled(s, a)
  {
    match a
    case Take(clear, block) => s.(clear := clear, block := block, expired := false, phase := if s.value == 0 && block then Found else Last)
    case SuspendAll => s.(holder := Taker, phase := Suspended)
    case Mark => if s.value == 0 then s.(state := Waiting, phase := Marked) else s.(phase := Resuming(false))
    case Delay => s.(delayed := true, phase := Resuming(true))
    case ResumeAll => Drained(s).(holder := NoOne, phase := Last)
    case TakeLast =>
      s.(value := if s.value == 0 || s.clear then 0 else s.value - 1,
         taken := s.taken + Taken(s), state := NotWaiting, phase := Outside)
    case Give => Given(s, false)
    case GiveFromISR => Given(s, s.holder != NoOne)
    case TimeOut => s.(delayed := false, expired := true)
    case OtherSuspends => s.(holder := Other)
    case OtherResumes => Drained(s).(holder := NoOne)
  }

  /** What the last critical section removes from the count. */
  function Taken(s: State): nat {
    if s.value == 0 then 0 else if s.clear then s.value else 1
  }

  // The invariant.

  predicate MayBeMarked(p: Phase) { p.Marked? || p == Resuming(true) || p.Last? }

  predicate Inv(s: State) {
    // who has the scheduler suspended
    && (s.phase.Suspended? || s.phase.Marked? || s.phase.Resuming? <==> s.holder == Taker)
    // the lists
    && s.linked <= 1
    && (s.linked == 1 ==> s.state == Received && s.holder != NoOne && MayBeMarked(s.phase))
    && (s.delayed ==> s.phase == Resuming(true) || s.phase.Last?)
    && (s.phase == Resuming(true) ==> s.delayed)
    && (s.phase.Marked? || s.delayed ==> s.state == Waiting || s.linked == 1)
    && (s.state == Waiting ==> s.value == 0 && MayBeMarked(s.phase))
    // the count
    && s.taken + s.value + s.wraps * WRAP == s.gives
    && (s.phase.Last? && !s.delayed && s.block && s.value == 0 ==> s.expired || s.wraps > 0)
    && (s.phase == Resuming(false) && s.value == 0 ==> s.wraps > 0)
    && (s.linked == 1 && s.value == 0 ==> s.wraps > 0)
    && (s.phase.Found? || s.phase.Suspended? || s.phase.Marked? || s.phase.Resuming? ==> s.block)
  }

  lemma StepKeeps(s: State, a: Action)
    requires Inv(s) && Enabled(s, a)
    ensures Inv(Apply(s, a))
  {
  }

  // Runs.

  predicate Init(s: State) {
    s == State(0, NotWaiting, Outside, s.clear, s.block, false, 0, NoOne, false, 0, 0, 0)
  }

  predicate Possible(s: State, run: seq<Action>)
    decreases |run|
  {
    run == [] || (Enabled(s, run[0]) && Possible(Apply(s, run[0]), run[1..]))
  }

  function After(s: State, run: seq<Action>): State
    requires Possible(s, run)
    decreases |run|
  {
    if run == [] then s else After(Apply(s, run[0]), run[1..])
  }

  lemma {:induction false} RunKeeps(s: State, run: seq<Action>)
    requires Inv(s) && Possible(s, run)
    ensures Inv(After(s, run))
    decreases |run|
  {
    hide Inv, Apply;
    if run != [] {
      StepKeeps(s, run[0]);
      RunKeeps(Apply(s, run[0]), run[1..]);
    }
  }

  /** No notification is lost: in every interleaving a blocked task that is not about to be unblocked
      is marked as waiting and has a count of 0, and with the scheduler running nobody is about to be
      unblocked; the event list item is linked at most once; and the gives are the takes, the count,
      and 2 ** 32 for every give that found the count at its maximum. */
  lemma NoLostNotification(s: State, run: seq<Action>)
    requires Init(s) && Possible(s, run)
    ensures var n := After(s, run);
            && (n.delayed && n.linked == 0 ==> n.state == Waiting && n.value == 0)
            && (n.holder == NoOne ==> n.linked == 0)
            && n.linked <= 1
            && n.gives == n.taken + n.value + n.wraps * WRAP
  {
    RunKeeps(s, run);
  }

  /** How many gives of a run find the count at its maximum. */
  function FullGives(s: State, run: seq<Action>): nat
    requires Possible(s, run)
    decreases |run|
  {
    if run == [] then 0 else
      (if (run[0].Give? || run[0].GiveFromISR?) && s.value == MAX_DELAY then 1 else 0) + FullGives(Apply(s, run[0]), run[1..])
  }

  lemma {:induction false} WrapsAreFullGives(s: State, run: seq<Action>)
    requires Possible(s, run)
    ensures After(s, run).wraps == s.wraps + FullGives(s, run)
    decreases |run|
  {
    if run != [] { WrapsAreFullGives(Apply(s, run[0]), run[1..]); }
  }

  /** So a run conserves the count iff no give finds it at its maximum. */
  lemma ConservedIff(s: State, run: seq<Action>)
    requires Init(s) && Possible(s, run)
    ensures var n := After(s, run); n.gives == n.taken + n.value <==> FullGives(s, run) == 0
  {
    RunKeeps(s, run);
    WrapsAreFullGives(s, run);
  }

  /** A call that may block returns 0 only if its block time has run out, while the count has not
      wrapped. */
  lemma ZeroMeansTimeout(s: State, run: seq<Action>)
    requires Init(s) && Possible(s, run) && Enabled(After(s, run), TakeLast) && FullGives(s, run) == 0
    ensures var n := After(s, run); n.block && n.value == 0 ==> n.expired
  {
    RunKeeps(s, run);
    WrapsAreFullGives(s, run);
  }

  // What the caller asked for.

  /** What the last take asked for, and whether its block time has run out since. */
  datatype Story = NoCall | Asked(clear: bool, block: bool, timedOut: bool)

  function StoryOf(run: seq<Action>): Story {
    if run == [] then NoCall else
      Told(StoryOf(run[..|run| - 1]), run[|run| - 1])
  }

  function Told(story: Story, a: Action): Story {
    match a
    case Take(clear, block) => Asked(clear, block, false)
    case TimeOut => if story.Asked? then story.(timedOut := true) else story
    case _ => story
  }

  predicate Tells(s: State, story: Story) {
    !s.phase.Outside? ==>
      && story == Asked(s.clear, s.block, s.expired)
      && (s.expired ==> !s.delayed && s.phase.Last?)
      && (!s.block ==> !s.delayed && s.phase.Last?)
  }

  lemma {:induction false} Extend(s: State, run: seq<Action>, a: Action)
    requires Possible(s, run + [a])
    ensures Possible(s, run) && Enabled(After(s, run), a) && After(s, run + [a]) == Apply(After(s, run), a)
    decreases |run|
  {
    hide Apply, Enabled;
    if run == [] {
      assert run + [a] == [a];
      assert [a][1..] == [];
    } else {
      assert (run + [a])[1..] == run[1..] + [a];
      Extend(Apply(s, run[0]), run[1..], a);
    }
  }

  lemma StepTells(s: State, a: Action, story: Story)
    requires Inv(s) && Enabled(s, a) && Tells(s, story)
    ensures Tells(Apply(s, a), Told(story, a))
  {
  }

  lemma {:induction false} RunTells(s: State, run: seq<Action>)
    requires Init(s) && Possible(s, run)
    ensures Inv(After(s, run)) && Tells(After(s, run), StoryOf(run))
    decreases |run|
  {
    RunKeeps(s, run);
    if run != [] {
      var before, a := run[..|run| - 1], run[|run| - 1];
      assert run == before + [a];
      Extend(s, before, a);
      RunTells(s, before);
      StepTells(After(s, before), a, StoryOf(before));
    }
    hide Inv, Tells, Apply;
  }

  /** In every run a take that finds count `v` leaves 0 if it was to clear the count or `v` is 0, and
      `v` - 1 otherwise, which is what it has taken; one that was to wait and finds 0 has timed out,
      while the count has not wrapped. One that was not to wait is never blocked, and one that has timed
      out is not blocked any more. */
  lemma TakesAsAsked(s: State, run: seq<Action>)
    requires Init(s) && Possible(s, run) && !After(s, run).phase.Outside?
    ensures var n, story := After(s, run), StoryOf(run);
            && story.Asked?
            && (n.delayed ==> story.block && !story.timedOut)
            && (Enabled(n, TakeLast) ==>
                  && var m := Apply(n, TakeLast);
                  && m.phase.Outside?
                  && m.value == (if story.clear || n.value == 0 then 0 else n.value - 1)
                  && m.taken == n.taken + (n.value - m.value)
                  && (story.block && n.value == 0 ==> story.timedOut || FullGives(s, run) > 0))
  {
    RunTells(s, run);
    WrapsAreFullGives(s, run);
  }

  predicate Gives(a: Action) { a.Give? || a.GiveFromISR? }

  /** How many notifications a run sends, and how many its takes remove. */
  function Sent(run: seq<Action>): nat {
    if run == [] then 0 else (if Gives(run[0]) then 1 else 0) + Sent(run[1..])
  }

  function Removed(s: State, run: seq<Action>): int
    requires Possible(s, run)
    decreases |run|
  {
    if run == [] then 0 else
      (if run[0].TakeLast? then s.value - Apply(s, run[0]).value else 0) + Removed(Apply(s, run[0]), run[1..])
  }

  lemma {:induction false} CountsAre(s: State, run: seq<Action>)
    requires Possible(s, run)
    ensures After(s, run).gives == s.gives + Sent(run) && After(s, run).taken == s.taken + Removed(s, run)
    decreases |run|
  {
    if run != [] { CountsAre(Apply(s, run[0]), run[1..]); }
  }

  /** What is sent is what takes remove and what is left, and 2 ** 32 for every give at a full count. */
  lemma SentIsRemovedAndLeft(s: State, run: seq<Action>)
    requires Init(s) && Possible(s, run)
    ensures Sent(run) == Removed(s, run) + After(s, run).value + FullGives(s, run) * WRAP
  {
    RunKeeps(s, run);
    WrapsAreFullGives(s, run);
    CountsAre(s, run);
  }

  // The code of the critical sections.

  class NotifiedTask {
    var notifiedValue: Tick
    var notifyState: NotifyState
    var phase: Phase
    var clearCountOnExit: bool
    var mayBlock: bool
    var delayed: bool       // the container of xStateListItem is a list of blocked tasks
    var linked: nat         // xEventListItem on xPendingReadyList
    var holder: Holder
    ghost var expired: bool
    ghost var gives: nat
    ghost var taken: nat
    ghost var wraps: nat

    ghost function View(): State
      reads this
    {
      State(notifiedValue, notifyState, phase, clearCountOnExit, mayBlock, delayed, linked, holder, expired, gives, taken, wraps)
    }

    constructor ()
      ensures Init(View())
    {
      notifiedValue, notifyState, phase, clearCountOnExit, mayBlock := 0, NotWaiting, Outside, false, false;
      delayed, linked, holder, expired := false, 0, NoOne, false;
      gives, taken, wraps := 0, 0, 0;
    }

    /** ulTaskGenericNotifyTake up to where it may suspend the scheduler. */
    method NotifyTake(clearCount: bool, block: bool)
      requires Enabled(View(), Take(clearCount, block))
      modifies this
      ensures View() == Apply(old(View()), Take(clearCount, block))
    {
      clearCountOnExit, mayBlock, expired := clearCount, block, false;
      if notifiedValue == 0 && block {
        phase := Found;
      } else {
        phase := Last;
      }
    }

    /** Its critical section inside vTaskSuspendAll and xTaskResumeAll. */
    method MarkWaiting()
      requires Enabled(View(), Mark)
      modifies this`notifyState, this`phase
      ensures View() == Apply(old(View()), Mark)
    {
      var shouldBlock := false;
      if notifiedValue == 0 {
        notifyState := Waiting;
        shouldBlock := true;
      }
      phase := if shouldBlock then Marked else Resuming(false);
    }

    /** Its last critical section. */
    method FinishTake() returns (count: Tick)
      requires Enabled(View(), TakeLast)
      modifies this`notifiedValue, this`notifyState, this`phase, this`taken
      ensures View() == Apply(old(View()), TakeLast) && count == old(notifiedValue)
    {
      count := notifiedValue;
      taken := taken + Taken(View());
      if count != 0 {
        if clearCountOnExit {
          notifiedValue := 0;
        } else {
          notifiedValue := count - 1;
        }
      }
      notifyState, phase := NotWaiting, Outside;
    }

    ghost method CountGive()
      modifies this`gives, this`wraps
      ensures gives == old(gives) + 1 && wraps == old(wraps) + if notifiedValue == MAX_DELAY then 1 else 0
    {
      gives, wraps := gives + 1, wraps + if notifiedValue == MAX_DELAY then 1 else 0;
    }

    /** xTaskGenericNotify with eIncrement. */
    method NotifyGive()
      requires Enabled(View(), Give)
      modifies this
      ensures View() == Apply(old(View()), Give)
    {
      CountGive();
      var originalNotifyState := notifyState;
      notifyState := Received;
      notifiedValue := Plus(notifiedValue, 1);
      if originalNotifyState == Waiting {
        delayed := false;
      }
    }

    /** vTaskGenericNotifyGiveFromISR. */
    method NotifyGiveFromISR()
      modifies this
      ensures View() == Apply(old(View()), GiveFromISR)
    {
      CountGive();
      var originalNotifyState := notifyState;
      notifyState := Received;
      notifiedValue := Plus(notifiedValue, 1);
      if originalNotifyState == Waiting {
        if holder == NoOne {
          delayed := false;
        } else {
          linked := linked + 1;
        }
      }
    }
  }
}
