/** xEventGroupSync as a reusable barrier: tasks that wait for each other without time limit, in
    any number of rounds and any order, while others use the remaining bits of the group. */
module Barrier {
  import opened Sequences
  import opened EventGroups

  /** What each task sets, and what all of them wait for. */
  datatype Rendezvous = Rendezvous(own: map<Task, Bits>, mask: Bits)

  /** The bits are user bits, every task sets bits of the mask only, and together they set it. */
  ghost predicate Sensible(r: Rendezvous) {
    && Users(r.mask) && r.mask != {}
    && (forall t :: t in r.own ==> r.own[t] <= r.mask)
    && (forall b :: b in r.mask ==> exists t :: t in r.own && b in r.own[t])
  }

  /** Every task sets a bit that no other task sets. */
  ghost predicate Needed(r: Rendezvous) {
    forall t :: t in r.own ==> HasOwnBit(r, t)
  }

  ghost predicate HasOwnBit(r: Rendezvous, t: Task)
    requires t in r.own
  {
    exists b :: b in r.own[t] && b in r.mask && forall u :: u in r.own && u != t ==> b !in r.own[u]
  }

  /** The group, and how many calls each task has begun and how many have returned. */
  datatype Tally = Tally(s: State, begun: map<Task, nat>, returned: map<Task, nat>)

  datatype Action = Arrive(t: Task) | Leave(t: Task) | SetOther(bits: Bits) | ClearOther(bits: Bits)

  function Meaning(r: Rendezvous, a: Action): EventGroups.Action
    requires a.Arrive? ==> a.t in r.own
  {
    match a
    case Arrive(t) => Sync(t, r.own[t], r.mask, true)
    case Leave(t) => Finish(t)
    case SetOther(bits) => Set(bits)
    case ClearOther(bits) => Clear(bits)
  }

  ghost predicate CanStep(r: Rendezvous, n: Tally, a: Action) {
    && n.s.g.Valid()
    && (a.Arrive? || a.Leave? ==> a.t in r.own && a.t in n.begun && a.t in n.returned)
    && (a.SetOther? || a.ClearOther? ==> a.bits * r.mask == {})
    && Enabled(n.s, Meaning(r, a))
  }

  /** The call that the action ends, if it ends one, counts as returned. */
  function Step(r: Rendezvous, n: Tally, a: Action): Tally
    requires CanStep(r, n, a)
  {
    var m := Meaning(r, a);
    Tally(Apply(n.s, m),
          if a.Arrive? then n.begun[a.t := n.begun[a.t] + 1] else n.begun,
          if (a.Arrive? || a.Leave?) && Returns(n.s, m).Returned? then n.returned[a.t := n.returned[a.t] + 1] else n.returned)
  }

  ghost predicate Start(r: Rendezvous, n: Tally) {
    && Init(n.s) && n.s.phase.Keys == r.own.Keys
    && n.begun == (map t | t in r.own :: 0) && n.returned == (map t | t in r.own :: 0)
  }

  ghost predicate Possible(r: Rendezvous, n: Tally, run: seq<Action>)
    decreases |run|
  {
    run == [] || (CanStep(r, n, run[0]) && Possible(r, Step(r, n, run[0]), run[1..]))
  }

  ghost function After(r: Rendezvous, n: Tally, run: seq<Action>): Tally
    requires Possible(r, n, run)
    decreases |run|
  {
    if run == [] then n else After(r, Step(r, n, run[0]), run[1..])
  }

  // The invariant.

  predicate OnList(n: Tally, t: Task) { t in n.s.g.waiting }

  /** Where a task is once `round` rounds are complete. */
  predicate Place(r: Rendezvous, n: Tally, t: Task, round: nat) {
    && t in n.s.phase && t in n.begun && t in n.returned
    && match n.s.phase[t]
       case Outside => !OnList(n, t) && n.begun[t] == n.returned[t] == round
       case Inside(waitFor, clear, all) =>
         && waitFor == r.mask && clear && all && t in n.s.g.value
         && if OnList(n, t) then n.begun[t] == round + 1 && n.returned[t] == round
            else n.begun[t] == round == n.returned[t] + 1 && UNBLOCKED in n.s.g.value[t]
  }

  /** The bits of the mask are those that the tasks on the list have set. */
  ghost predicate Marked(r: Rendezvous, n: Tally) {
    && (forall b :: b in r.mask && b in n.s.g.bits ==> exists t :: t in r.own && OnList(n, t) && b in r.own[t])
    && (forall t :: t in r.own && OnList(n, t) ==> r.own[t] <= n.s.g.bits)
  }

  ghost predicate Rounds(r: Rendezvous, n: Tally, round: nat) {
    && Inv(n.s) && Marked(r, n)
    && n.s.phase.Keys == r.own.Keys
    && (forall t :: t in r.own ==> Place(r, n, t, round))
  }

  lemma StartHolds(r: Rendezvous, n: Tally)
    requires Start(r, n)
    ensures Rounds(r, n, 0)
  {
  }

  /** Nobody's condition is met while a bit of the mask is missing, so setting bits wakes nobody. */
  lemma NobodyWakes(r: Rendezvous, n: Tally, round: nat, bits: Bits)
    requires Sensible(r) && Rounds(r, n, round) && (n.s.g.bits + bits) * r.mask != r.mask
    ensures SetBits(n.s.g, bits) == n.s.g.(bits := n.s.g.bits + bits)
  {
    var now := n.s.g.bits + bits;
    forall u | u in n.s.g.waiting ensures !Matches(n.s.g.value[u], now) {
      assert Asks(n.s, u);
      assert Place(r, n, u, round);
      CodedMatches(r.mask, true, true, now);
    }
    NoneMatch(n.s.g.waiting, n.s.g.value, now);
    assert now - {} == now;
  }

  lemma {:induction false} NoneMatch(waiting: seq<Task>, value: map<Task, Bits>, bits: Bits)
    requires forall u :: u in waiting ==> u in value && !Matches(value[u], bits)
    ensures StillWaiting(waiting, value, bits) == waiting && ToClear(waiting, value, bits) == {}
    ensures Delivered(waiting, value, bits) == value
  {
    if waiting != [] { NoneMatch(waiting[1..], value, bits); }
  }

  /** The bits of a task that has not arrived are missing. */
  lemma MissingBit(r: Rendezvous, n: Tally, round: nat, t: Task, u: Task)
    requires Needed(r) && Rounds(r, n, round) && t in r.own && u in r.own && u != t && !OnList(n, u)
    ensures (n.s.g.bits + r.own[t]) * r.mask != r.mask
  {
    assert HasOwnBit(r, u);
    var b :| b in r.own[u] && b in r.mask && forall v :: v in r.own && v != u ==> b !in r.own[v];
    assert b !in n.s.g.bits;
    assert b !in (n.s.g.bits + r.own[t]) * r.mask;
  }

  /** The last to arrive wakes all the others and clears the mask. */
  lemma EverybodyWakes(r: Rendezvous, n: Tally, round: nat, bits: Bits)
    requires Sensible(r) && Rounds(r, n, round) && (n.s.g.bits + bits) * r.mask == r.mask
    ensures var g := SetBits(n.s.g, bits);
            && g.waiting == [] && (g.bits - r.mask) * r.mask == {} && g.value.Keys == n.s.g.value.Keys
            && forall u :: u in n.s.g.value ==> g.value[u] == if OnList(n, u) then Told(n.s.g.bits + bits) else n.s.g.value[u]
  {
    var now, g := n.s.g.bits + bits, SetBits(n.s.g, bits);
    SetBitsExact(n.s.g, bits);
    forall u | u in n.s.g.waiting ensures u !in g.waiting {
      assert Asks(n.s, u);
      assert Place(r, n, u, round);
      CodedMatches(r.mask, true, true, now);
    }
    NoMembers(g.waiting);
  }

  lemma NoMembers(list: seq<Task>)
    ensures (forall u :: u !in list) ==> list == []
  {
    assert list != [] ==> list[0] in list;
  }

  lemma ArriveWaits(r: Rendezvous, n: Tally, round: nat, t: Task)
    requires Sensible(r) && Rounds(r, n, round) && CanStep(r, n, Arrive(t))
    requires (n.s.g.bits + r.own[t]) * r.mask != r.mask
    ensures Rounds(r, Step(r, n, Arrive(t)), round) && OnList(Step(r, n, Arrive(t)), t)
    ensures Returns(n.s, Meaning(r, Arrive(t))) == NotYet
  {
    hide Matches, Met, Coded, Users, SetBits, Inv;
    var m := Step(r, n, Arrive(t));
    StepKeeps(n.s, Meaning(r, Arrive(t)));
    NobodyWakes(r, n, round, r.own[t]);
    assert m.s == Placed(n.s.(g := n.s.g.(bits := n.s.g.bits + r.own[t])), t, r.mask, true, true);
    assert Place(r, n, t, round);
    forall u | u in r.own ensures Place(r, m, u, round) { assert Place(r, n, u, round); }
    assert OnList(m, t);
    forall u | u in r.own && OnList(m, u) ensures r.own[u] <= m.s.g.bits { assert u != t ==> OnList(n, u); }
    forall b | b in r.mask && b in m.s.g.bits ensures exists u :: u in r.own && OnList(m, u) && b in r.own[u] {
      if b in n.s.g.bits {
        var u :| u in r.own && OnList(n, u) && b in r.own[u];
        assert OnList(m, u);
      }
    }
  }

  lemma ArriveLast(r: Rendezvous, n: Tally, round: nat, t: Task)
    requires Sensible(r) && Needed(r) && Rounds(r, n, round) && CanStep(r, n, Arrive(t))
    requires (n.s.g.bits + r.own[t]) * r.mask == r.mask
    ensures Rounds(r, Step(r, n, Arrive(t)), round + 1) && Step(r, n, Arrive(t)).s.g.bits * r.mask == {}
  {
    hide Matches, Met, Coded, Users, SetBits, Inv;
    var m := Step(r, n, Arrive(t));
    StepKeeps(n.s, Meaning(r, Arrive(t)));
    EverybodyWakes(r, n, round, r.own[t]);
    assert Place(r, n, t, round);
    forall u | u in r.own && u != t ensures OnList(n, u) {
      if !OnList(n, u) { MissingBit(r, n, round, t, u); }
    }
    forall u | u in r.own ensures Place(r, m, u, round + 1) {
      assert Place(r, n, u, round);
    }
    assert m.s.g.bits == SetBits(n.s.g, r.own[t]).bits - r.mask;
    forall b | b in r.mask ensures b !in m.s.g.bits { }
  }

  lemma LeaveKeeps(r: Rendezvous, n: Tally, round: nat, t: Task)
    requires Sensible(r) && Rounds(r, n, round) && CanStep(r, n, Leave(t))
    ensures Rounds(r, Step(r, n, Leave(t)), round)
  {
    hide Matches, Met, Coded, Users, SetBits, Inv;
    var m := Step(r, n, Leave(t));
    StepKeeps(n.s, Meaning(r, Leave(t)));
    assert Place(r, n, t, round);
    forall u | u in r.own ensures Place(r, m, u, round) { assert Place(r, n, u, round); }
    forall b | b in r.mask && b in m.s.g.bits ensures exists u :: u in r.own && OnList(m, u) && b in r.own[u] {
      var u :| u in r.own && OnList(n, u) && b in r.own[u];
      assert OnList(m, u);
    }
    forall u | u in r.own && OnList(m, u) ensures r.own[u] <= m.s.g.bits { assert OnList(n, u); }
  }

  lemma ListedMisses(r: Rendezvous, n: Tally, round: nat, t: Task)
    requires Sensible(r) && Rounds(r, n, round) && OnList(n, t)
    ensures n.s.g.bits * r.mask != r.mask
  {
    assert Asks(n.s, t) && Place(r, n, t, round);
    CodedMatches(r.mask, true, true, n.s.g.bits);
  }

  lemma SomeBitMissing(r: Rendezvous, n: Tally, round: nat)
    requires Sensible(r) && Rounds(r, n, round)
    ensures n.s.g.bits * r.mask != r.mask
  {
    var b :| b in r.mask;
    if b in n.s.g.bits {
      var t :| t in r.own && OnList(n, t) && b in r.own[t];
      ListedMisses(r, n, round, t);
    } else {
      assert b !in n.s.g.bits * r.mask;
    }
  }

  /** Somebody has not arrived: the round is not complete before its last arrival. */
  lemma SomebodyMissing(r: Rendezvous, n: Tally, round: nat)
    requires Sensible(r) && Rounds(r, n, round)
    ensures exists t :: t in r.own && t in n.begun && n.begun[t] == round
  {
    SomeBitMissing(r, n, round);
    assert n.s.g.bits * r.mask <= r.mask;
    var b :| b in r.mask && b !in n.s.g.bits;
    var t :| t in r.own && b in r.own[t];
    assert !OnList(n, t);
    assert Place(r, n, t, round);
  }

  /** Setting or clearing other bits leaves the rendezvous alone. */
  lemma OthersKeep(r: Rendezvous, n: Tally, round: nat, a: Action)
    requires Sensible(r) && Rounds(r, n, round) && CanStep(r, n, a) && (a.SetOther? || a.ClearOther?)
    ensures Rounds(r, Step(r, n, a), round)
  {
    SomeBitMissing(r, n, round);
    hide Matches, Met, Coded, Users, SetBits, Inv;
    var m := Step(r, n, a);
    StepKeeps(n.s, Meaning(r, a));
    assert forall b :: b in r.mask && b in a.bits ==> b in a.bits * r.mask;
    if a.SetOther? {
      assert (n.s.g.bits + a.bits) * r.mask == n.s.g.bits * r.mask;
      NobodyWakes(r, n, round, a.bits);
    }
    forall u | u in r.own ensures Place(r, m, u, round) { assert Place(r, n, u, round); }
    forall b | b in r.mask && b in m.s.g.bits ensures exists u :: u in r.own && OnList(m, u) && b in r.own[u] {
      var u :| u in r.own && OnList(n, u) && b in r.own[u];
      assert OnList(m, u);
    }
    forall u | u in r.own && OnList(m, u) ensures r.own[u] <= m.s.g.bits { assert OnList(n, u); }
  }

  function NextRound(r: Rendezvous, n: Tally, a: Action, round: nat): nat
    requires a.Arrive? ==> a.t in r.own
  {
    if a.Arrive? && (n.s.g.bits + r.own[a.t]) * r.mask == r.mask then round + 1 else round
  }

  lemma StepHolds(r: Rendezvous, n: Tally, round: nat, a: Action)
    requires Sensible(r) && Needed(r) && Rounds(r, n, round) && CanStep(r, n, a)
    ensures Rounds(r, Step(r, n, a), NextRound(r, n, a, round))
  {
    hide Rounds, Needed, Sensible;
    match a
    case Arrive(t) =>
      if (n.s.g.bits + r.own[t]) * r.mask == r.mask { ArriveLast(r, n, round, t); } else { ArriveWaits(r, n, round, t); }
    case Leave(t) => LeaveKeeps(r, n, round, t);
    case _ => OthersKeep(r, n, round, a);
  }

  /** How many rounds a run completes. */
  ghost function RoundsOf(r: Rendezvous, n: Tally, run: seq<Action>, round: nat): nat
    requires Possible(r, n, run)
    decreases |run|
  {
    if run == [] then round else RoundsOf(r, Step(r, n, run[0]), run[1..], NextRound(r, n, run[0], round))
  }

  lemma {:induction false} RunHolds(r: Rendezvous, n: Tally, run: seq<Action>, round: nat)
    requires Sensible(r) && Needed(r) && Rounds(r, n, round) && Possible(r, n, run)
    ensures Rounds(r, After(r, n, run), RoundsOf(r, n, run, round))
    decreases |run|
  {
    hide Rounds, Needed, Sensible;
    if run != [] {
      StepHolds(r, n, round, run[0]);
      RunHolds(r, Step(r, n, run[0]), run[1..], NextRound(r, n, run[0], round));
    }
  }

  /** In any number of rounds, in any order: a task has begun as many calls as rounds are complete
      or one more, no call of a round returns before the round is complete, and a round is complete
      only when the last task has arrived; every call returns the whole mask, and the mask is clear
      of the bits of everyone who has not arrived since. */
  lemma BarrierHolds(r: Rendezvous, n: Tally, run: seq<Action>)
    requires Sensible(r) && Needed(r) && Start(r, n) && Possible(r, n, run)
    ensures var m, round := After(r, n, run), RoundsOf(r, n, run, 0);
            && (forall t :: t in r.own ==>
                  && t in m.begun && t in m.returned
                  && m.returned[t] <= round <= m.begun[t] <= m.returned[t] + 1)
            && (exists t :: t in r.own && t in m.begun && m.begun[t] == round)
            && (forall t, b :: t in r.own && m.begun[t] == round && b in r.own[t] && b in m.s.g.bits ==>
                  exists u :: u in r.own && u != t && b in r.own[u] && m.begun[u] == round + 1)
  {
    StartHolds(r, n);
    RunHolds(r, n, run, 0);
    var m, round := After(r, n, run), RoundsOf(r, n, run, 0);
    SomebodyMissing(r, m, round);
    forall t | t in r.own
      ensures t in m.begun && t in m.returned && m.returned[t] <= round <= m.begun[t] <= m.returned[t] + 1
    {
      assert Place(r, m, t, round);
    }
    forall t, b | t in r.own && m.begun[t] == round && b in r.own[t] && b in m.s.g.bits
      ensures exists u :: u in r.own && u != t && b in r.own[u] && m.begun[u] == round + 1
    {
      var u :| u in r.own && OnList(m, u) && b in r.own[u];
      assert Place(r, m, u, round) && Place(r, m, t, round);
    }
  }

  /** Every call that returns has met everybody: it returns all the bits of the mask. */
  lemma ReturnsWholeMask(r: Rendezvous, n: Tally, run: seq<Action>, a: Action)
    requires Sensible(r) && Needed(r) && Start(r, n) && Possible(r, n, run) && CanStep(r, After(r, n, run), a)
    ensures var m := After(r, n, run);
            var o := Returns(m.s, Meaning(r, a));
            && (a.Leave? ==> o.Returned?)
            && (o.Returned? ==> !o.timedOut && r.mask <= o.bits)
  {
    StartHolds(r, n);
    RunHolds(r, n, run, 0);
    var m, round := After(r, n, run), RoundsOf(r, n, run, 0);
    OutcomeSound(m.s, Meaning(r, a));
    if a.Leave? { assert Place(r, m, a.t, round); }
  }

  // Without a bit of its own a task can be passed by.

  /** Nobody has returned from a call that somebody else has not begun. */
  ghost predicate Together(r: Rendezvous, n: Tally) {
    forall t, u :: t in r.own && u in r.own ==> t in n.returned && u in n.begun && n.returned[t] <= n.begun[u]
  }

  ghost predicate Safe(r: Rendezvous, n: Tally) {
    forall run :: Possible(r, n, run) ==> Together(r, After(r, n, run))
  }

  /** The tasks still to come in the run that passes `t` by. */
  ghost predicate Coming(r: Rendezvous, n: Tally, t: Task, list: seq<Task>) {
    && Inv(n.s) && n.s.phase.Keys == r.own.Keys && Distinct(list)
    && t in r.own && n.s.phase[t].Outside? && t !in list
    && (forall u :: u in list ==> u in r.own && n.s.phase[u].Outside?)
    && (forall u :: u in r.own ==> u in n.begun && u in n.returned)
    && n.begun[t] == 0
    && (forall u :: u in r.own && u != t && u !in list ==>
          OnList(n, u) && n.s.phase[u] == Inside(r.mask, true, true) && r.own[u] <= n.s.g.bits)
  }

  lemma OthersCover(r: Rendezvous, t: Task, b: nat)
    requires Sensible(r) && t in r.own && !HasOwnBit(r, t) && b in r.mask
    ensures exists u :: u in r.own && u != t && b in r.own[u]
  {
  }

  /** The last of the others finds all its company's bits set, and need not wait. */
  lemma SomebodyComes(r: Rendezvous, n: Tally, t: Task, list: seq<Task>)
    requires Sensible(r) && Coming(r, n, t, list) && !HasOwnBit(r, t)
    ensures list != []
  {
    forall b | b in r.mask ensures list == [] ==> b in n.s.g.bits { OthersCover(r, t, b); }
    assert list == [] ==> n.s.g.bits * r.mask == r.mask;
    var b :| b in r.mask;
    OthersCover(r, t, b);
    var u :| u in r.own && u != t && b in r.own[u];
    if u !in list {
      assert Asks(n.s, u);
      CodedMatches(r.mask, true, true, n.s.g.bits);
    }
  }

  lemma NobodyWakesYet(r: Rendezvous, n: Tally, t: Task, list: seq<Task>, bits: Bits)
    requires Coming(r, n, t, list) && (n.s.g.bits + bits) * r.mask != r.mask
    ensures SetBits(n.s.g, bits) == n.s.g.(bits := n.s.g.bits + bits)
  {
    var now := n.s.g.bits + bits;
    forall u | u in n.s.g.waiting ensures !Matches(n.s.g.value[u], now) {
      assert Asks(n.s, u);
      CodedMatches(r.mask, true, true, now);
    }
    NoneMatch(n.s.g.waiting, n.s.g.value, now);
    assert now - {} == now;
  }

  lemma FirstApart(list: seq<Task>)
    requires Distinct(list) && list != []
    ensures Distinct(list[1..]) && forall u :: u in list <==> u == list[0] || u in list[1..]
    ensures list[0] !in list[1..]
  {
    assert list == [list[0]] + list[1..];
  }

  lemma OneMoreComes(r: Rendezvous, n: Tally, t: Task, list: seq<Task>)
    requires Sensible(r) && Coming(r, n, t, list) && list != [] && CanStep(r, n, Arrive(list[0]))
    requires (n.s.g.bits + r.own[list[0]]) * r.mask != r.mask
    ensures Coming(r, Step(r, n, Arrive(list[0])), t, list[1..])
  {
    hide Matches, Met, Coded, Users, SetBits, Inv;
    var u, rest := list[0], list[1..];
    var m := Step(r, n, Arrive(u));
    StepKeeps(n.s, Meaning(r, Arrive(u)));
    NobodyWakesYet(r, n, t, list, r.own[u]);
    assert m.s == Placed(n.s.(g := n.s.g.(bits := n.s.g.bits + r.own[u])), u, r.mask, true, true);
    FirstApart(list);
    assert OnList(m, u);
    hide Apply, Enabled, CanStep, Distinct;
  }

  lemma {:induction false} PassedBy(r: Rendezvous, n: Tally, t: Task, list: seq<Task>) returns (run: seq<Action>)
    requires Sensible(r) && Coming(r, n, t, list) && !HasOwnBit(r, t)
    ensures Possible(r, n, run) && !Together(r, After(r, n, run))
    decreases |list|
  {
    SomebodyComes(r, n, t, list);
    var u := list[0];
    assert CanStep(r, n, Arrive(u));
    var m := Step(r, n, Arrive(u));
    if (n.s.g.bits + r.own[u]) * r.mask == r.mask {
      run := [Arrive(u)];
      LastPasses(r, n, t, u);
    } else {
      OneMoreComes(r, n, t, list);
      var rest := PassedBy(r, m, t, list[1..]);
      run := [Arrive(u)] + rest;
      assert run[1..] == rest;
    }
  }

  lemma LastPasses(r: Rendezvous, n: Tally, t: Task, u: Task)
    requires CanStep(r, n, Arrive(u)) && t in r.own && u != t && t in n.begun && n.begun[t] == 0
    requires (n.s.g.bits + r.own[u]) * r.mask == r.mask
    ensures Possible(r, n, [Arrive(u)]) && !Together(r, After(r, n, [Arrive(u)]))
  {
    hide SetBits, Met;
    var m, run := Step(r, n, Arrive(u)), [Arrive(u)];
    assert run[1..] == [] && Possible(r, m, []);
    assert After(r, n, run) == m;
    assert m.returned[u] == n.returned[u] + 1 && m.begun[t] == 0;
  }

  lemma {:induction false} Listing(tasks: set<Task>) returns (list: seq<Task>)
    ensures Distinct(list) && forall u :: u in list <==> u in tasks
    decreases |tasks|
  {
    if tasks == {} {
      list := [];
    } else {
      var u :| u in tasks;
      var rest := Listing(tasks - {u});
      list := [u] + rest;
    }
  }

  /** It is a barrier, on all runs, iff every task sets a bit that no other task sets. */
  lemma BarrierIff(r: Rendezvous, n: Tally)
    requires Sensible(r) && Start(r, n)
    ensures Safe(r, n) <==> Needed(r)
  {
    if Needed(r) {
      forall run | Possible(r, n, run) ensures Together(r, After(r, n, run)) { BarrierHolds(r, n, run); }
    } else {
      var t :| t in r.own && !HasOwnBit(r, t);
      var list := Listing(r.own.Keys - {t});
      InitHolds(n.s);
      var run := PassedBy(r, n, t, list);
    }
  }

  /** The usual arrangement, disjoint bits and nobody without one, is among those that work. */
  lemma DisjointSuffices(r: Rendezvous)
    requires forall t :: t in r.own ==> r.own[t] != {} && r.own[t] <= r.mask
    requires forall t, u :: t in r.own && u in r.own && t != u ==> Apart(r.own[t], r.own[u])
    ensures Needed(r)
  {
    forall t | t in r.own ensures HasOwnBit(r, t) {
      var b :| b in r.own[t];
      forall u | u in r.own && u != t ensures b !in r.own[u] { assert Apart(r.own[t], r.own[u]); }
    }
  }

  predicate Apart(a: Bits, b: Bits) { a !! b }
}
