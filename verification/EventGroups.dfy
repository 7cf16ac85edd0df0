/** Event groups (freertos/event_groups.c) as atomic steps of any number of tasks: every function
    does its work with the scheduler suspended or in one critical section, and interrupts reach a
    group only through the timer daemon. */
module EventGroups {
  import opened Sequences

  type Task = nat

  /** An EventBits_t is given by the numbers of the bits that are 1, so `+` is bitwise or, `*` is
      bitwise and, and `-` is and-not. */
  type Bits = set<nat>

  const CLEAR_ON_EXIT: nat := 24  // eventCLEAR_EVENTS_ON_EXIT_BIT
  const UNBLOCKED: nat := 25      // eventUNBLOCKED_DUE_TO_BIT_SET
  const WAIT_FOR_ALL: nat := 26   // eventWAIT_FOR_ALL_BITS
  const IN_USE: nat := 31         // taskEVENT_LIST_ITEM_VALUE_IN_USE

  /** eventEVENT_BITS_CONTROL_BYTES. */
  function Control(): Bits { {24, 25, 26, 27, 28, 29, 30, 31} }

  /** prvTestWaitCondition. */
  predicate Met(bits: Bits, waitFor: Bits, all: bool) {
    if all then bits * waitFor == waitFor else bits * waitFor != {}
  }

  /** What a waiting task is on the list with: its event list item carries the bits it waits for
      and how it waits. */
  function Coded(waitFor: Bits, clear: bool, all: bool): Bits {
    waitFor + (if clear then {CLEAR_ON_EXIT} else {}) + (if all then {WAIT_FOR_ALL} else {}) + {IN_USE}
  }

  /** The test made on an item of the list. */
  predicate Matches(value: Bits, bits: Bits) {
    var control, waitedFor := value * Control(), value - Control();
    if WAIT_FOR_ALL in control then waitedFor * bits == waitedFor else waitedFor * bits != {}
  }

  /** What a matching item adds to the bits to clear. */
  function ClearedBy(value: Bits): Bits {
    if CLEAR_ON_EXIT in value * Control() then value - Control() else {}
  }

  /** The item value that tells a task why it was unblocked. */
  function Told(bits: Bits): Bits { bits + {UNBLOCKED} + {IN_USE} }

  /** An event group, and the event list item values of the tasks that are inside a call. */
  datatype Group = Group(bits: Bits, waiting: seq<Task>, value: map<Task, Bits>) {

    ghost predicate Valid() {
      && Distinct(waiting)
      && (forall u :: u in waiting ==> u in value)
    }
  }

  // Setting bits.

  function StillWaiting(waiting: seq<Task>, value: map<Task, Bits>, bits: Bits): (r: seq<Task>)
    requires forall u :: u in waiting ==> u in value
    ensures forall u :: u in r <==> u in waiting && !Matches(value[u], bits)
  {
    if waiting == [] then [] else
      assert waiting == [waiting[0]] + waiting[1..];
      (if Matches(value[waiting[0]], bits) then [] else [waiting[0]]) + StillWaiting(waiting[1..], value, bits)
  }

  /** The union of what the matching items clear. */
  function ToClear(waiting: seq<Task>, value: map<Task, Bits>, bits: Bits): (r: Bits)
    requires forall u :: u in waiting ==> u in value
    ensures forall b :: b in r <==> exists u :: u in waiting && Matches(value[u], bits) && b in ClearedBy(value[u])
  {
    if waiting == [] then {} else
      assert waiting == [waiting[0]] + waiting[1..];
      var rest := ToClear(waiting[1..], value, bits);
      if Matches(value[waiting[0]], bits) then ClearedBy(value[waiting[0]]) + rest else rest
  }

  function Delivered(waiting: seq<Task>, value: map<Task, Bits>, bits: Bits): map<Task, Bits> {
    map u | u in value :: if u in waiting && Matches(value[u], bits) then Told(bits) else value[u]
  }

  /** xEventGroupSetBits. */
  function SetBits(g: Group, bits: Bits): Group
    requires g.Valid()
  {
    var now := g.bits + bits;
    Group(now - ToClear(g.waiting, g.value, now),
          StillWaiting(g.waiting, g.value, now),
          Delivered(g.waiting, g.value, now))
  }

  lemma {:induction false} StillWaitingDistinct(waiting: seq<Task>, value: map<Task, Bits>, bits: Bits)
    requires Distinct(waiting) && forall u :: u in waiting ==> u in value
    ensures Distinct(StillWaiting(waiting, value, bits))
  {
    if waiting != [] {
      var rest := StillWaiting(waiting[1..], value, bits);
      StillWaitingDistinct(waiting[1..], value, bits);
      assert waiting[0] !in rest;
    }
  }

  /** A call wakes exactly the tasks whose condition the old and the new bits together meet, tells
      them all the same value, clears exactly the bits that one of them is to clear, and leaves
      nobody waiting whose condition the remaining bits meet. */
  lemma SetBitsExact(g: Group, bits: Bits)
    requires g.Valid()
    ensures var n, now := SetBits(g, bits), g.bits + bits;
            && n.Valid() && n.value.Keys == g.value.Keys
            && (forall u :: u in g.waiting ==> (u in n.waiting <==> !Matches(g.value[u], now)))
            && (forall u :: u in n.waiting ==> u in g.waiting)
            && (forall u :: u in g.value ==>
                  n.value[u] == if u in g.waiting && u !in n.waiting then Told(now) else g.value[u])
            && (forall b :: b in n.bits <==>
                  b in now && forall u :: u in g.waiting && u !in n.waiting ==> b !in ClearedBy(g.value[u]))
            && (forall u :: u in n.waiting ==> !Matches(n.value[u], n.bits))
  {
    var n, now := SetBits(g, bits), g.bits + bits;
    StillWaitingDistinct(g.waiting, g.value, now);
    forall u | u in n.waiting ensures !Matches(n.value[u], n.bits) {
      FewerBitsMatchLess(n.value[u], n.bits, now);
    }
  }

  lemma FewerBitsMatchLess(value: Bits, fewer: Bits, bits: Bits)
    requires fewer <= bits
    ensures Matches(value, fewer) ==> Matches(value, bits)
  {
    if !Matches(value, fewer) { return; }
    var waitedFor := value - Control();
    if WAIT_FOR_ALL in value * Control() {
      assert forall b :: b in waitedFor ==> b in waitedFor * fewer;
      assert waitedFor * bits == waitedFor;
    } else {
      var b :| b in waitedFor * fewer;
      assert b in waitedFor * bits;
    }
  }

  /** The coding in the item value is faithful. */
  lemma CodedMatches(waitFor: Bits, clear: bool, all: bool, bits: Bits)
    requires waitFor * Control() == {}
    ensures var v := Coded(waitFor, clear, all);
            && UNBLOCKED !in v && v - Control() == waitFor
            && ClearedBy(v) == (if clear then waitFor else {})
            && (Matches(v, bits) <==> Met(bits, waitFor, all))
  {
    var v := Coded(waitFor, clear, all);
    assert forall b :: b in waitFor ==> b !in Control() by { assert forall b :: b in waitFor && b in Control() ==> b in waitFor * Control(); }
    assert v - Control() == waitFor;
    assert waitFor * bits == bits * waitFor;
  }

  // The calls.

  /** `Inside` a call the task is blocked, or has been unblocked and not run on yet. */
  datatype Phase = Outside | Inside(waitFor: Bits, clear: bool, all: bool)

  datatype State = State(g: Group, phase: map<Task, Phase>)

  datatype Action =
    | WaitBits(t: Task, waitFor: Bits, clear: bool, all: bool, block: bool)
    | Sync(t: Task, bits: Bits, waitFor: Bits, block: bool)
    | Set(bits: Bits)
    | Clear(bits: Bits)
    | TimeOut(t: Task)
    | Finish(t: Task)  // what an unblocked task does when it runs again

  predicate Users(bits: Bits) { bits * Control() == {} }

  predicate Enabled(s: State, a: Action) {
    match a
    case WaitBits(t, waitFor, _, _, _) => t in s.phase && s.phase[t].Outside? && Users(waitFor) && waitFor != {}
    case Sync(t, bits, waitFor, _) => t in s.phase && s.phase[t].Outside? && Users(bits) && Users(waitFor) && waitFor != {}
    case Set(bits) => Users(bits)
    case Clear(bits) => Users(bits)
    case TimeOut(t) => t in s.g.waiting
    case Finish(t) => t in s.phase && s.phase[t].Inside? && t !in s.g.waiting && t in s.g.value
  }

  /** vTaskPlaceOnUnorderedEventList. */
  function Placed(s: State, t: Task, waitFor: Bits, clear: bool, all: bool): State {
    State(s.g.(waiting := s.g.waiting + [t], value := s.g.value[t := Coded(waitFor, clear, all)]),
          s.phase[t := Inside(waitFor, clear, all)])
  }

  function Less(g: Group, bits: Bits): Group { g.(bits := g.bits - bits) }

  function Apply(s: State, a: Action): State
    requires s.g.Valid() && Enabled(s, a)
  {
    match a
    case WaitBits(t, waitFor, clear, all, block) =>
      if Met(s.g.bits, waitFor, all) then s.(g := if clear then Less(s.g, waitFor) else s.g)
      else if block then Placed(s, t, waitFor, clear, all) else s
    case Sync(t, bits, waitFor, block) =>
      var n := s.(g := SetBits(s.g, bits));
      if (s.g.bits + bits) * waitFor == waitFor then n.(g := Less(n.g, waitFor))
      else if block then Placed(n, t, waitFor, true, true) else n
    case Set(bits) => s.(g := SetBits(s.g, bits))
    case Clear(bits) => s.(g := Less(s.g, bits))
    case TimeOut(t) => s.(g := s.g.(waiting := Without(s.g.waiting, t)))
    case Finish(t) =>
      var p := s.phase[t];
      var g := s.g.(value := s.g.value - {t});
      State(if UNBLOCKED !in s.g.value[t] && Met(g.bits, p.waitFor, p.all) && p.clear then Less(g, p.waitFor) else g,
            s.phase[t := Outside])
  }

  datatype Outcome = NotYet | Returned(bits: Bits, timedOut: bool)

  /** What the call returns that the action ends, if it ends one. */
  function Returns(s: State, a: Action): Outcome
    requires s.g.Valid() && Enabled(s, a)
  {
    match a
    case WaitBits(_, waitFor, _, all, block) =>
      if Met(s.g.bits, waitFor, all) then Returned(s.g.bits, false)
      else if block then NotYet else Returned(s.g.bits, true)
    case Sync(_, bits, waitFor, block) =>
      if (s.g.bits + bits) * waitFor == waitFor then Returned(s.g.bits + bits, false)
      else if block then NotYet else Returned(SetBits(s.g, bits).bits, true)
    case Finish(t) =>
      if UNBLOCKED in s.g.value[t] then Returned(s.g.value[t] - Control(), false)
      else Returned(s.g.bits - Control(), true)
    case _ => NotYet
  }

  // The invariant.

  /** The item of a waiting or timed-out task still says what it waits for. */
  predicate Asks(s: State, u: Task) {
    && u in s.phase && s.phase[u].Inside? && u in s.g.value
    && Users(s.phase[u].waitFor) && s.phase[u].waitFor != {}
    && s.g.value[u] == Coded(s.phase[u].waitFor, s.phase[u].clear, s.phase[u].all)
  }

  /** The item of a task that was woken carries bits that met its condition. */
  predicate Served(s: State, u: Task) {
    && u in s.phase && s.phase[u].Inside? && u in s.g.value
    && UNBLOCKED in s.g.value[u] && Met(s.g.value[u] - Control(), s.phase[u].waitFor, s.phase[u].all)
  }

  ghost predicate Inv(s: State) {
    && s.g.Valid() && Users(s.g.bits)
    && (forall u :: u in s.g.waiting ==> Asks(s, u) && !Matches(s.g.value[u], s.g.bits))
    && (forall u :: u in s.phase && s.phase[u].Inside? ==> u in s.g.waiting || Asks(s, u) || Served(s, u))
  }

  lemma ToldIs(bits: Bits)
    requires Users(bits)
    ensures UNBLOCKED in Told(bits) && Told(bits) - Control() == bits
  {
    assert forall b :: b in bits ==> b !in Control() by {
      assert forall b :: b in bits && b in Control() ==> b in bits * Control();
    }
  }

  lemma UsersSum(a: Bits, b: Bits)
    requires Users(a) && Users(b)
    ensures Users(a + b)
    ensures Users(a - b)
  {
    assert (a + b) * Control() == a * Control() + b * Control();
  }

  lemma SetKeeps(s: State, bits: Bits)
    requires Inv(s) && Users(bits)
    ensures Inv(s.(g := SetBits(s.g, bits)))
  {
    hide Matches, Met, Coded, Told, Users;
    var n, now := s.(g := SetBits(s.g, bits)), s.g.bits + bits;
    SetBitsExact(s.g, bits);
    UsersSum(s.g.bits, bits);
    UsersLess(now, n.g.bits);
    forall u | u in s.g.waiting && u !in n.g.waiting ensures Served(n, u) {
      assert Asks(s, u);
      CodedMatches(s.phase[u].waitFor, s.phase[u].clear, s.phase[u].all, now) by { AsksUsers(s, u); }
      ToldIs(now);
    }
    forall u | u in n.g.waiting ensures Asks(n, u) { assert Asks(s, u); }
    forall u | u in s.phase && s.phase[u].Inside? && u !in s.g.waiting ensures Asks(n, u) || Served(n, u) {
      assert Asks(s, u) || Served(s, u);
    }
  }

  lemma AsksUsers(s: State, u: Task)
    requires Asks(s, u)
    ensures s.phase[u].waitFor * Control() == {}
  {
  }

  lemma UsersLess(a: Bits, b: Bits)
    requires Users(a) && b <= a
    ensures Users(b)
  {
    assert b * Control() <= a * Control();
  }

  lemma LessKeeps(s: State, bits: Bits)
    requires Inv(s)
    ensures Inv(s.(g := Less(s.g, bits)))
  {
    hide Matches, Met, Coded, Users;
    var n := s.(g := Less(s.g, bits));
    UsersLess(s.g.bits, n.g.bits);
    forall u | u in n.g.waiting ensures Asks(n, u) && !Matches(n.g.value[u], n.g.bits) {
      assert Asks(s, u);
      FewerBitsMatchLess(s.g.value[u], n.g.bits, s.g.bits);
    }
    forall u | u in s.phase && s.phase[u].Inside? && u !in s.g.waiting ensures Asks(n, u) || Served(n, u) {
      assert Asks(s, u) || Served(s, u);
    }
  }

  lemma PlacedKeeps(s: State, t: Task, waitFor: Bits, clear: bool, all: bool)
    requires Inv(s) && t in s.phase && s.phase[t].Outside? && Users(waitFor) && waitFor != {} && !Met(s.g.bits, waitFor, all)
    ensures Inv(Placed(s, t, waitFor, clear, all))
  {
    hide Matches, Met, Coded;
    var n := Placed(s, t, waitFor, clear, all);
    CodedMatches(waitFor, clear, all, s.g.bits);
    assert t !in s.g.waiting by { assert t in s.g.waiting ==> Asks(s, t); }
    forall u | u in n.g.waiting ensures Asks(n, u) && !Matches(n.g.value[u], n.g.bits) {
      assert u != t ==> Asks(s, u);
    }
    forall u | u in n.phase && n.phase[u].Inside? && u !in n.g.waiting ensures Asks(n, u) || Served(n, u) {
      assert Asks(s, u) || Served(s, u);
    }
  }

  lemma TimeOutKeeps(s: State, t: Task)
    requires Inv(s) && t in s.g.waiting
    ensures Inv(Apply(s, TimeOut(t)))
  {
    hide Matches, Met, Coded, Users;
    var n := Apply(s, TimeOut(t));
    WithoutDistinct(s.g.waiting, t);
    forall u | u in s.phase && s.phase[u].Inside? && u !in n.g.waiting ensures Asks(n, u) || Served(n, u) {
      assert Asks(s, u) || Served(s, u);
    }
    forall u | u in n.g.waiting ensures Asks(n, u) { assert Asks(s, u); }
  }

  lemma FinishKeeps(s: State, t: Task)
    requires Inv(s) && Enabled(s, Finish(t))
    ensures Inv(Apply(s, Finish(t)))
  {
    hide Matches, Met, Coded, Users;
    var p := s.phase[t];
    var n := State(s.g.(value := s.g.value - {t}), s.phase[t := Outside]);
    forall u | u in n.g.waiting ensures Asks(n, u) && !Matches(n.g.value[u], n.g.bits) { assert Asks(s, u); }
    forall u | u in n.phase && n.phase[u].Inside? && u !in n.g.waiting ensures Asks(n, u) || Served(n, u) {
      assert Asks(s, u) || Served(s, u);
    }
    LessKeeps(n, p.waitFor);
  }

  lemma SyncKeeps(s: State, t: Task, bits: Bits, waitFor: Bits, block: bool)
    requires Inv(s) && Enabled(s, Sync(t, bits, waitFor, block))
    ensures Inv(Apply(s, Sync(t, bits, waitFor, block)))
  {
    hide Users, Matches;
    var n := s.(g := SetBits(s.g, bits));
    SetKeeps(s, bits);
    hide Inv;
    if (s.g.bits + bits) * waitFor == waitFor {
      LessKeeps(n, waitFor);
    } else if block {
      SetOnlyLess(s.g, bits);
      MoreBitsMeetMore(n.g.bits, s.g.bits + bits, waitFor);
      PlacedKeeps(n, t, waitFor, true, true);
    }
  }

  lemma MoreBitsMeetMore(fewer: Bits, bits: Bits, waitFor: Bits)
    requires fewer <= bits
    ensures Met(fewer, waitFor, true) ==> Met(bits, waitFor, true)
  {
    assert fewer * waitFor <= bits * waitFor <= waitFor;
  }

  lemma SetOnlyLess(g: Group, bits: Bits)
    requires g.Valid()
    ensures SetBits(g, bits).bits <= g.bits + bits
  {
  }

  lemma StepKeeps(s: State, a: Action)
    requires Inv(s) && Enabled(s, a)
    ensures Inv(Apply(s, a))
  {
    hide Inv, Users, SetBits;
    match a
    case WaitBits(t, waitFor, clear, all, block) =>
      if Met(s.g.bits, waitFor, all) { LessKeeps(s, waitFor); }
      else if block { PlacedKeeps(s, t, waitFor, clear, all); }
    case Sync(t, bits, waitFor, block) => SyncKeeps(s, t, bits, waitFor, block);
    case Set(bits) => SetKeeps(s, bits);
    case Clear(bits) => LessKeeps(s, bits);
    case TimeOut(t) => TimeOutKeeps(s, t);
    case Finish(t) => FinishKeeps(s, t);
  }

  // Runs.

  ghost predicate Init(s: State) {
    s.g == Group({}, [], map[]) && forall t :: t in s.phase ==> s.phase[t].Outside?
  }

  ghost predicate Possible(s: State, run: seq<Action>)
    decreases |run|
  {
    s.g.Valid() && (run == [] || (Enabled(s, run[0]) && Possible(Apply(s, run[0]), run[1..])))
  }

  ghost function After(s: State, run: seq<Action>): State
    requires Possible(s, run)
    decreases |run|
  {
    if run == [] then s else After(Apply(s, run[0]), run[1..])
  }

  lemma {:induction false} RunKeeps(s: State, run: seq<Action>)
    requires Inv(s) && Possible(s, run)
    ensures Inv(After(s, run))
    decreases |run|
  {
    if run != [] {
      StepKeeps(s, run[0]);
      RunKeeps(Apply(s, run[0]), run[1..]);
    }
  }

  lemma InitHolds(s: State)
    requires Init(s)
    ensures Inv(s)
  {
  }

  /** No lost event: in no reachable state does a task wait whose condition the bits meet. */
  lemma NobodyMetWaits(s: State, run: seq<Action>)
    requires Init(s) && Possible(s, run)
    ensures var n := After(s, run);
            && n.g.Valid()
            && forall u :: u in n.g.waiting ==>
                 u in n.phase && n.phase[u].Inside? && !Met(n.g.bits, n.phase[u].waitFor, n.phase[u].all)
  {
    InitHolds(s);
    RunKeeps(s, run);
    var n := After(s, run);
    forall u | u in n.g.waiting
      ensures u in n.phase && n.phase[u].Inside? && !Met(n.g.bits, n.phase[u].waitFor, n.phase[u].all)
    {
      assert Asks(n, u);
      CodedMatches(n.phase[u].waitFor, n.phase[u].clear, n.phase[u].all, n.g.bits);
    }
  }

  /** What the call that an action ends was waiting for. */
  function Condition(s: State, a: Action): (Bits, bool)
    requires Enabled(s, a) && (a.WaitBits? || a.Sync? || a.Finish?)
  {
    match a
    case WaitBits(_, waitFor, _, all, _) => (waitFor, all)
    case Sync(_, _, waitFor, _) => (waitFor, true)
    case Finish(t) => (s.phase[t].waitFor, s.phase[t].all)
  }

  /** In every run a call that does not time out returns bits that met its condition, and one that
      does returns the bits of the group, without control bits either way. */
  lemma OutcomesSound(s: State, run: seq<Action>, a: Action)
    requires Init(s) && Possible(s, run) && Enabled(After(s, run), a)
    ensures var n := After(s, run);
            && n.g.Valid()
            && var r := Returns(n, a);
            && (r.Returned? ==>
                  && (a.WaitBits? || a.Sync? || a.Finish?)
                  && Users(r.bits)
                  && (!r.timedOut ==> Met(r.bits, Condition(n, a).0, Condition(n, a).1))
                  && (r.timedOut && !a.Sync? ==> r.bits == n.g.bits)
                  && (r.timedOut && !a.Finish? ==> !Met(r.bits, Condition(n, a).0, Condition(n, a).1)))
  {
    InitHolds(s);
    RunKeeps(s, run);
    OutcomeSound(After(s, run), a);
  }

  lemma OutcomeSound(n: State, a: Action)
    requires Inv(n) && Enabled(n, a)
    ensures var r := Returns(n, a);
            && (r.Returned? ==>
                  && (a.WaitBits? || a.Sync? || a.Finish?)
                  && Users(r.bits)
                  && (!r.timedOut ==> Met(r.bits, Condition(n, a).0, Condition(n, a).1))
                  && (r.timedOut && !a.Sync? ==> r.bits == n.g.bits)
                  && (r.timedOut && !a.Finish? ==> !Met(r.bits, Condition(n, a).0, Condition(n, a).1)))
  {
    match a
    case Finish(t) =>
      assert Asks(n, t) || Served(n, t);
      if UNBLOCKED in n.g.value[t] {
        if Asks(n, t) { CodedMatches(n.phase[t].waitFor, n.phase[t].clear, n.phase[t].all, {}); }
      } else {
        assert n.g.bits - Control() == n.g.bits by { ToldIs(n.g.bits); }
      }
    case Sync(t, bits, waitFor, block) =>
      UsersSum(n.g.bits, bits);
      SetOnlyLess(n.g, bits);
      UsersLess(n.g.bits + bits, SetBits(n.g, bits).bits);
      MoreBitsMeetMore(SetBits(n.g, bits).bits, n.g.bits + bits, waitFor);
    case _ =>
  }

  // What a woken task is told.

  lemma ToldStays(s: State, a: Action, u: Task)
    requires Inv(s) && Enabled(s, a) && a != Finish(u)
    requires u in s.phase && s.phase[u].Inside? && u !in s.g.waiting && u in s.g.value
    ensures var n := Apply(s, a);
            u in n.phase && n.phase[u] == s.phase[u] && u !in n.g.waiting && u in n.g.value && n.g.value[u] == s.g.value[u]
  {
    hide Matches, Met, Coded, Users, Told;
    if a.Set? || a.Sync? { SetBitsExact(s.g, a.bits); }
  }

  lemma {:induction false} ToldStaysLong(s: State, run: seq<Action>, u: Task)
    requires Inv(s) && Possible(s, run) && Finish(u) !in run
    requires u in s.phase && s.phase[u].Inside? && u !in s.g.waiting && u in s.g.value
    ensures var n := After(s, run);
            && Inv(n) && u in n.phase && n.phase[u] == s.phase[u] && u !in n.g.waiting
            && u in n.g.value && n.g.value[u] == s.g.value[u]
    decreases |run|
  {
    if run != [] {
      ToldStays(s, run[0], u);
      StepKeeps(s, run[0]);
      ToldStaysLong(Apply(s, run[0]), run[1..], u);
    }
  }

  /** A task that a set bit wakes returns exactly the bits that woke it, whatever is set or cleared
      before it runs again. */
  lemma WokenReturns(s: State, a: Action, run: seq<Action>, u: Task)
    requires Inv(s) && Enabled(s, a) && (a.Set? || a.Sync?)
    requires u in s.g.waiting && u !in Apply(s, a).g.waiting
    requires Possible(Apply(s, a), run) && Finish(u) !in run
    ensures var n := After(Apply(s, a), run);
            && n.g.Valid() && Enabled(n, Finish(u))
            && Returns(n, Finish(u)) == Returned(s.g.bits + a.bits, false)
  {
    var now := s.g.bits + a.bits;
    var m := Apply(s, a);
    StepKeeps(s, a);
    assert Asks(s, u);
    WokenTold(s, a, u);
    UsersSum(s.g.bits, a.bits);
    ToldIs(now);
    ToldStaysLong(m, run, u);
  }

  lemma WokenTold(s: State, a: Action, u: Task)
    requires Inv(s) && Enabled(s, a) && (a.Set? || a.Sync?)
    requires u in s.g.waiting && u !in Apply(s, a).g.waiting
    ensures var m := Apply(s, a);
            && u in m.phase && m.phase[u] == s.phase[u] && u in m.g.value && m.g.value[u] == Told(s.g.bits + a.bits)
  {
    hide Matches, Met, Coded, Users, Told;
    assert Asks(s, u);
    SetBitsExact(s.g, a.bits);
  }
}
