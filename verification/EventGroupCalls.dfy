/** What each event group call does and returns, in every run, from what its caller asked for. */
module EventGroupCalls {
  import opened Sequences
  import opened EventGroups

  /** What a task asked for in its last call, and whether its block time has run out since. */
  datatype Story = NoCall | Asked(waitFor: Bits, clear: bool, all: bool, timedOut: bool)

  function Told(story: Story, a: Action, t: Task): Story {
    match a
    case WaitBits(u, waitFor, clear, all, _) => if u == t then Asked(waitFor, clear, all, false) else story
    case Sync(u, _, waitFor, _) => if u == t then Asked(waitFor, true, true, false) else story
    case TimeOut(u) => if u == t && story.Asked? then story.(timedOut := true) else story
    case _ => story
  }

  function StoryOf(run: seq<Action>, t: Task): Story {
    if run == [] then NoCall else Told(StoryOf(run[..|run| - 1], t), run[|run| - 1], t)
  }

  /** A task inside a call is inside the one it made last; it is on the list until its condition is met
      or its block time runs out, and its item value then tells which. */
  predicate Tells(s: State, t: Task, story: Story) {
    t in s.phase && (s.phase[t].Inside? ==>
      && story.Asked? && s.phase[t] == Inside(story.waitFor, story.clear, story.all)
      && t in s.g.value
      && (t in s.g.waiting ==> !story.timedOut)
      && (t !in s.g.waiting ==> (UNBLOCKED in s.g.value[t] <==> !story.timedOut)))
  }

  lemma {:induction false} Extend(s: State, run: seq<Action>, a: Action)
    requires Possible(s, run + [a])
    ensures Possible(s, run) && After(s, run).g.Valid() && Enabled(After(s, run), a)
    ensures After(s, run + [a]) == Apply(After(s, run), a)
    decreases |run|
  {
    hide Apply, Enabled;
    if run == [] {
      assert run + [a] == [a];
      assert [a][1..] == [];
    } else {
      assert (run + [a])[1..] == run[1..] + [a];
      Extend(Apply(s, run[0]), run[1..], a);
    }
  }

  lemma StepTells(s: State, a: Action, t: Task, story: Story)
    requires Inv(s) && Enabled(s, a) && Tells(s, t, story)
    ensures Tells(Apply(s, a), t, Told(story, a, t))
  {
    if t in s.g.waiting {
      assert Asks(s, t);
      CodedMatches(s.phase[t].waitFor, s.phase[t].clear, s.phase[t].all, {});
    }
    if a.Set? || a.Sync? { SetBitsExact(s.g, a.bits); }
    hide Matches, Met, Coded, Users, SetBits;
  }

  lemma {:induction false} RunTells(s: State, run: seq<Action>, t: Task)
    requires Init(s) && Possible(s, run) && t in s.phase
    ensures Inv(After(s, run)) && Tells(After(s, run), t, StoryOf(run, t))
    decreases |run|
  {
    InitHolds(s);
    RunKeeps(s, run);
    hide Inv, Apply, Enabled;
    if run != [] {
      var before, a := run[..|run| - 1], run[|run| - 1];
      assert run == before + [a];
      Extend(s, before, a);
      RunTells(s, before, t);
      StepTells(After(s, before), a, t, StoryOf(before, t));
    }
  }

  // The bits.

  /** What a call that sets no bits leaves of them: a wait that returns, at once or timed out, clears
      what it waited for if it was to and the bits it returns meet its condition; a woken task clears
      nothing, for the setting call has done it; and a clear takes away just its own bits. */
  ghost predicate LeavesBits(before: Bits, a: Action, after: Bits, r: Outcome, story: Story) {
    match a
    case WaitBits(_, waitFor, clear, all, _) =>
      after == if r.Returned? && clear && Met(r.bits, waitFor, all) then before - waitFor else before
    case Finish(_) =>
      story.Asked? && r.Returned?
      && after == if r.timedOut && story.clear && Met(r.bits, story.waitFor, story.all) then before - story.waitFor else before
    case Clear(bits) => forall b :: b in after <==> b in before && b !in bits
    case TimeOut(_) => after == before
    case _ => true
  }

  /** Which calls end, and how: at once if the condition is met or the caller would not wait; after
      waiting, timed out iff the block time ran out before the condition was met. */
  predicate EndsCall(before: Bits, a: Action, after: Bits, r: Outcome, story: Story) {
    match a
    case WaitBits(_, waitFor, _, all, block) =>
      && (r.Returned? <==> Met(before, waitFor, all) || !block)
      && (r.Returned? ==> r.bits == before && (r.timedOut <==> !Met(before, waitFor, all)))
    case Sync(_, bits, waitFor, block) =>
      && (r.Returned? <==> Met(before + bits, waitFor, true) || !block)
      && (r.Returned? ==> (r.timedOut <==> !Met(before + bits, waitFor, true)) && r.bits == if r.timedOut then after else before + bits)
    case Finish(_) => r.Returned? && story.Asked? && r.timedOut == story.timedOut && (r.timedOut ==> r.bits == before)
    case _ => r == NotYet
  }

  /** Who waits afterwards: a call that does not return joins the end of the list, a time-out takes its
      task off, and no other call but a set touches the list. */
  ghost predicate LeavesList(before: seq<Task>, a: Action, after: seq<Task>, r: Outcome) {
    match a
    case WaitBits(t, _, _, _, _) => after == if r == NotYet then before + [t] else before
    case Sync(t, _, _, _) =>
      if r == NotYet then after != [] && after[|after| - 1] == t else forall u :: u in after ==> u in before
    case Set(_) => forall u :: u in after ==> u in before
    case TimeOut(t) => forall u :: u in after <==> u in before && u != t
    case _ => after == before
  }

  function Actor(a: Action): Task { if a.WaitBits? || a.Sync? || a.TimeOut? || a.Finish? then a.t else 0 }

  /** In every run each call does to the bits and the list, and returns, what its caller asked for. */
  lemma CallsDoAsAsked(s: State, run: seq<Action>, a: Action)
    requires Init(s) && Possible(s, run) && After(s, run).g.Valid() && Enabled(After(s, run), a)
    ensures var n, story := After(s, run), StoryOf(run, Actor(a));
            var m, r := Apply(n, a), Returns(n, a);
            && LeavesBits(n.g.bits, a, m.g.bits, r, story)
            && EndsCall(n.g.bits, a, m.g.bits, r, story)
            && LeavesList(n.g.waiting, a, m.g.waiting, r)
  {
    TasksStay(s, run, Actor(a));
    if Actor(a) in s.phase { RunTells(s, run, Actor(a)); } else { InitHolds(s); RunKeeps(s, run); }
    StepAsAsked(After(s, run), a, StoryOf(run, Actor(a)));
  }

  lemma {:induction false} TasksStay(s: State, run: seq<Action>, t: Task)
    requires Possible(s, run)
    ensures t in After(s, run).phase <==> t in s.phase
    decreases |run|
  {
    if run != [] { TasksStay(Apply(s, run[0]), run[1..], t); }
  }

  lemma StepAsAsked(n: State, a: Action, story: Story)
    requires Inv(n) && Enabled(n, a) && (a.Finish? ==> Tells(n, a.t, story))
    ensures var m, r := Apply(n, a), Returns(n, a);
            && LeavesBits(n.g.bits, a, m.g.bits, r, story)
            && EndsCall(n.g.bits, a, m.g.bits, r, story)
            && LeavesList(n.g.waiting, a, m.g.waiting, r)
  {
    if a.Set? || a.Sync? { SetBitsExact(n.g, a.bits); }
    if a.Finish? { UserBitsStay(n.g.bits); }
    if a.Sync? { assert (n.g.bits + a.bits) * a.waitFor == a.waitFor <==> Met(n.g.bits + a.bits, a.waitFor, true); }
    hide Matches, Coded, SetBits;
  }

  lemma UserBitsStay(bits: Bits)
    requires Users(bits)
    ensures bits - Control() == bits
  {
    ToldIs(bits);
    assert forall b :: b in bits && b in Control() ==> b in bits * Control();
  }

  /** A set, also as part of a rendezvous, wakes exactly the tasks whose conditions it meets, and clears
      exactly what those of them that asked for it waited for, and the rendezvous bits if it completes
      one: in terms of what each of them asked for in its own call. */
  lemma SetsDoAsAsked(s: State, run: seq<Action>, a: Action)
    requires Init(s) && Possible(s, run) && After(s, run).g.Valid() && Enabled(After(s, run), a) && (a.Set? || a.Sync?)
    ensures var n := After(s, run);
            var m, now := Apply(n, a), n.g.bits + a.bits;
            && (forall u :: u in n.g.waiting ==> StoryOf(run, u).Asked? && (u in m.g.waiting <==> !MetFor(now, StoryOf(run, u))))
            && (forall b :: b in m.g.bits <==>
                  && b in now && !(a.Sync? && Met(now, a.waitFor, true) && b in a.waitFor)
                  && forall u :: u in n.g.waiting && MetFor(now, StoryOf(run, u)) ==> !Clears(StoryOf(run, u), b))
  {
    InitHolds(s);
    RunKeeps(s, run);
    var n := After(s, run);
    var m, now := Apply(n, a), n.g.bits + a.bits;
    forall u | u in n.g.waiting
      ensures StoryOf(run, u).Asked?
      ensures Matches(n.g.value[u], now) <==> MetFor(now, StoryOf(run, u))
      ensures forall b :: b in ClearedBy(n.g.value[u]) <==> Clears(StoryOf(run, u), b)
      ensures a.Sync? ==> u != a.t
    {
      assert Asks(n, u);
      TasksStay(s, run, u);
      RunTells(s, run, u);
      CodedMatches(n.phase[u].waitFor, n.phase[u].clear, n.phase[u].all, now);
    }
    SetBitsExact(n.g, a.bits);
    SetStep(n, a);
    hide Apply, Enabled, Matches, ClearedBy, MetFor, Clears, Met, SetBits, Inv, Init, Possible;
  }

  predicate MetFor(bits: Bits, story: Story) { story.Asked? && Met(bits, story.waitFor, story.all) }

  predicate Clears(story: Story, b: nat) { story.Asked? && story.clear && b in story.waitFor }

  /** A rendezvous is a set, then a clear or a wait. */
  lemma SetStep(n: State, a: Action)
    requires n.g.Valid() && Enabled(n, a) && (a.Set? || a.Sync?)
    ensures var m, g := Apply(n, a), SetBits(n.g, a.bits);
            && (forall b :: b in m.g.bits <==> b in g.bits && !(a.Sync? && Met(n.g.bits + a.bits, a.waitFor, true) && b in a.waitFor))
            && (forall u :: u in m.g.waiting ==> u in g.waiting || (a.Sync? && u == a.t))
            && (forall u :: u in g.waiting ==> u in m.g.waiting)
  {
    hide SetBits;
  }
}
