/** What the users of a timer can count on: over any run of the daemon it follows the commands given
    to it and the mode it was given. */
module TimerCommands {
  import opened Sequences
  import opened Ticks
  import opened Timers
  import opened TimerRuns
  import Rings

  /** What a timer was last told: its period and mode, whether and from when it is to run, and whether
      its mode has been changed since. */
  datatype Story =
    | Unknown
    | Known(period: Tick, autoReload: bool, started: bool, start: nat, changed: bool)

  function Told(story: Story, e: Event, u: Id): Story {
    match e
    case Create(id, timer) => if id == u then Known(timer.period, timer.autoReload, false, 0, false) else story
    case SetMode(id, auto) => if id == u && story.Known? then story.(autoReload := auto, changed := true) else story
    case Execute(c, now) => if c.id == u && story.Known? then Commanded(story, c, now) else story
    case Pass(_) => story
  }

  function Commanded(story: Story, c: Command, now: nat): Story
    requires story.Known?
  {
    match c
    case Start(_, at) => story.(started := true, start := at, changed := false)
    case ChangePeriod(_, period) => story.(period := period, started := true, start := now, changed := false)
    case Stop(_) => story.(started := false)
    case Delete(_) => Unknown
  }

  function StoryOf(events: seq<Event>, u: Id, story: Story): Story {
    if events == [] then story else StoryOf(events[1..], u, Told(story, events[0], u))
  }

  /** The timer does what it was told: it exists until it is deleted, with its period and mode; once
      stopped it is inactive; and as long as it is to run its due instants count from the start it was
      told. If its mode has not been changed since, an auto-reload timer is active all the time, and a
      one-shot timer makes one callback and is active until then. */
  predicate Follows(d: Daemon, u: Id, story: Story) {
    match story
    case Unknown => u !in d.timers
    case Known(period, auto, started, start, changed) =>
      && u in d.timers && u in d.plans
      && d.timers[u].period == period && d.timers[u].autoReload == auto
      && (!started ==> !d.timers[u].active)
      && (started ==> d.plans[u].start == start && (d.timers[u].active || d.plans[u].calls != []))
      && (started && !changed && auto ==> d.timers[u].active)
      && (started && !changed && !auto ==> |d.plans[u].calls| <= 1 && (d.timers[u].active <==> d.plans[u].calls == []))
  }

  lemma ExpireFollows(d: Daemon, id: Id, now: nat, u: Id, story: Story)
    requires WellFormed(d) && id in d.timers && Due(d, id) <= now && d.timers[id].active
    requires Follows(d, u, story)
    ensures Follows(Expire(d, id, now), u, story)
  {
    var timer := d.timers[id];
    var n := if timer.autoReload then Backlog(Due(d, id), now, timer.period) + 1 else 1;
    FireAddsUp(d.plans[id], timer.period, n, now);
    hide Backlog, Instant, Due, Inserted, Fire, Low, Epoch;
  }

  lemma HeadFollows(d: Daemon, now: nat, u: Id, story: Story)
    requires WellFormed(d) && Placed(d) && Ascending(d.timers, d.current) && Ascending(d.timers, d.overflow)
    requires d.current != [] && Due(d, d.current[0]) <= now && Follows(d, u, story)
    ensures Follows(ProcessHead(d, now), u, story)
  {
    HeadOff(d);
    hide Due, Ascending, Placed, Follows;
    FollowsLists(d, d.(current := d.current[1..]), u, story);
    ExpireFollows(d.(current := d.current[1..]), d.current[0], now, u, story);
  }

  /** Where the timers are listed does not matter. */
  lemma FollowsLists(d: Daemon, n: Daemon, u: Id, story: Story)
    requires n.timers == d.timers && n.plans == d.plans
    ensures Follows(d, u, story) <==> Follows(n, u, story)
  {
  }

  lemma {:induction false} DrainedFollows(d: Daemon, off: set<Id>, clock: nat, u: Id, story: Story)
    requires Inv(d, off, clock) && Epoch(clock) > Epoch(d.last) && Follows(d, u, story)
    ensures Follows(Drained(d, off, clock), u, story)
    decreases |d.current|
  {
    hide Follows, Ascending, Calls, Complete;
    if d.current != [] {
      assert d.current[0] in d.current;
      LastTickEnds(d, clock);
      DueInEpoch(d, d.current[0]);
      HeadKeeps(d, off, LastTick(d), clock);
      HeadFollows(d, LastTick(d), u, story);
      DrainedFollows(ProcessHead(d, LastTick(d)), off, clock, u, story);
    }
  }

  lemma SampledFollows(d: Daemon, off: set<Id>, now: nat, u: Id, story: Story)
    requires Inv(d, off, now) && OnTime(d, now) && Follows(d, u, story)
    ensures Follows(Sampled(d, off, now), u, story)
  {
    if Wrapped(d, now) {
      if d.current != [] {
        WrappedExact(d, now);
        DrainedFollows(d, off, now, u, story);
      }
      var e := if d.current == [] then d else Drained(d, off, now);
      FollowsLists(e, Sampled(d, off, now), u, story);
    } else {
      FollowsLists(d, Sampled(d, off, now), u, story);
    }
  }

  lemma PassFollows(d: Daemon, now: nat, u: Id, story: Story)
    requires Inv(d, {}, now) && OnTime(d, now) && Follows(d, u, story)
    ensures Follows(Passed(d, now), u, story)
  {
    SampledFollows(d, {}, now, u, story);
    SampleKeeps(d, {}, now);
    if OutcomeOf(d, now) == Processed {
      WrappedExact(d, now);
      HeadDueExact(d, now);
      FollowsLists(d, d.(last := now), u, story);
      HeadFollows(d.(last := now), now, u, story);
    }
  }

  lemma ExecutedFollows(d: Daemon, c: Command, now: nat, u: Id, story: Story)
    requires WellFormed(d) && Legal(d, c, now) && Follows(d, u, story)
    ensures Follows(Executed(d, c, now), u, if c.id == u && story.Known? then Commanded(story, c, now) else story)
  {
    var told := if c.id == u && story.Known? then Commanded(story, c, now) else story;
    match c
    case Start(id, at) =>
      var started := Scheduled(d, id, d.timers[id].period, at);
      assert Follows(started, u, told);
      if Due(started, id) <= now { ExpireFollows(started, id, now, u, told); }
      hide Due, Inserted, Low, Epoch, Expire;
    case _ =>
      hide Due, Inserted, Low, Epoch, Expire;
  }

  lemma CommandFollows(d: Daemon, c: Command, now: nat, u: Id, story: Story)
    requires Inv(d, {}, now) && OnTime(d, now) && Legal(d, c, now) && Follows(d, u, story)
    ensures Follows(CommandDone(d, c, now), u, if c.id == u && story.Known? then Commanded(story, c, now) else story)
  {
    CommandSafe(d, c, now);
    FollowsLists(d, Unlisted(d, c.id), u, story);
    SampledFollows(Unlisted(d, c.id), {c.id}, now, u, story);
    hide Inv, OnTime, Follows, Sampled, Executed, Unlisted;
    ExecutedFollows(Sampled(Unlisted(d, c.id), {c.id}, now), c, now, u, story);
  }

  lemma StepFollows(s: State, e: Event, u: Id, story: Story)
    requires Safe(s) && Enabled(s, e) && Follows(s.d, u, story)
    ensures Follows(Step(s, e).d, u, Told(story, e, u))
  {
    match e
    case Pass(now) =>
      InvLater(s.d, {}, s.clock, now);
      PassFollows(s.d, now, u, story);
    case Execute(c, now) =>
      InvLater(s.d, {}, s.clock, now);
      CommandFollows(s.d, c, now, u, story);
    case SetMode(_, _) =>
    case Create(_, _) =>
  }

  lemma {:induction false} RunFollows(s: State, events: seq<Event>, u: Id, story: Story)
    requires Safe(s) && Run(s, events) && Follows(s.d, u, story)
    ensures Follows(After(s, events).d, u, StoryOf(events, u, story))
    decreases |events|
  {
    hide Safe, Enabled, Step, Follows;
    if events != [] {
      StepSafe(s, events[0]);
      StepFollows(s, events[0], u, story);
      RunFollows(Step(s, events[0]), events[1..], u, Told(story, events[0], u));
    }
  }

  /** Over any run of the daemon from the start every timer follows what it was told. */
  lemma TimersFollow(events: seq<Event>, u: Id)
    requires Safe(BOOT) && Run(BOOT, events)
    ensures Follows(After(BOOT, events).d, u, StoryOf(events, u, Unknown))
  {
    RunFollows(BOOT, events, u, Unknown);
  }

  // The daemon gets done.

  /** How many timers of a list are due by `now`. */
  function DueCount(d: Daemon, list: seq<Id>, now: nat): nat {
    if list == [] then 0 else
      (if list[0] in d.timers && list[0] in d.plans && Due(d, list[0]) <= now then 1 else 0) + DueCount(d, list[1..], now)
  }

  lemma {:induction false} DueCountFrame(d: Daemon, n: Daemon, list: seq<Id>, id: Id, now: nat)
    requires id !in list
    requires forall u :: u in list ==> u in d.timers && u in d.plans && u in n.timers && u in n.plans && Due(n, u) == Due(d, u)
    ensures DueCount(n, list, now) == DueCount(d, list, now)
  {
    if list != [] { DueCountFrame(d, n, list[1..], id, now); }
  }

  lemma {:induction false} DueCountInserted(d: Daemon, timers: map<Id, Timer>, list: seq<Id>, id: Id, now: nat)
    requires id in timers && forall u :: u in list ==> u in timers
    requires id in d.timers && id in d.plans && Due(d, id) > now
    ensures DueCount(d, Inserted(timers, list, id), now) == DueCount(d, list, now)
  {
    if list == [] || timers[list[0]].value > timers[id].value {
      assert ([id] + list)[1..] == list;
    } else {
      DueCountInserted(d, timers, list[1..], id, now);
      assert ([list[0]] + Inserted(timers, list[1..], id))[1..] == Inserted(timers, list[1..], id);
    }
  }

  /** Processing the head serves all its instants up to now: it is not due any more. */
  lemma HeadServed(d: Daemon, now: nat)
    requires WellFormed(d) && Placed(d) && Ascending(d.timers, d.current) && Ascending(d.timers, d.overflow)
    requires d.current != [] && Due(d, d.current[0]) <= now
    ensures DueCount(ProcessHead(d, now), ProcessHead(d, now).current, now) == DueCount(d, d.current, now) - 1
  {
    var id, rest := d.current[0], d.current[1..];
    var n := ProcessHead(d, now);
    var timer, plan := d.timers[id], d.plans[id];
    var k := if timer.autoReload then Backlog(Due(d, id), now, timer.period) + 1 else 1;
    FireAddsUp(plan, timer.period, k, now);
    BacklogExact(plan.start, |plan.calls|, timer.period, now);
    assert id !in rest;
    DueCountFrame(d, n, rest, id, now);
    if timer.autoReload && n.current != rest { DueCountInserted(n, n.timers, rest, id, now); }
  }

  function Passes(now: nat, k: nat): seq<Event> { seq(k, _ => Pass(now)) }

  lemma ProcessedServes(d: Daemon, now: nat)
    requires Inv(d, {}, now) && OnTime(d, now) && OutcomeOf(d, now) == Processed
    ensures DueCount(Passed(d, now), Passed(d, now).current, now) < DueCount(d, d.current, now)
  {
    WrappedExact(d, now);
    HeadDueExact(d, now);
    DueCountSample(d, d.current, now);
    HeadServed(d.(last := now), now);
    hide ProcessHead, DueCount, Ascending, Calls;
  }

  /** A pass that does not block switches the lists or has fewer timers due after it. */
  lemma PassProgresses(s: State, now: nat)
    requires Safe(s) && Enabled(s, Pass(now)) && !OutcomeOf(s.d, now).Blocked?
    ensures var n := Step(s, Pass(now));
            && Safe(n) && Enabled(n, Pass(now)) && !Wrapped(n.d, now)
            && (Wrapped(s.d, now) || DueCount(n.d, n.d.current, now) < DueCount(s.d, s.d.current, now))
  {
    StepSafe(s, Pass(now));
    InvLater(s.d, {}, s.clock, now);
    PassedOn(s.d, now);
    if OutcomeOf(s.d, now) == Processed { ProcessedServes(s.d, now); }
    hide Inv, Passed, DueCount;
  }

  /** At any clock value, whatever is due, after finitely many passes the daemon blocks; by then
      every active timer has had its callbacks, as BlockedMeansServed says. */
  lemma {:induction false} GetsToBlock(s: State, now: nat) returns (k: nat)
    requires Safe(s) && Enabled(s, Pass(now))
    ensures Run(s, Passes(now, k)) && OutcomeOf(After(s, Passes(now, k)).d, now).Blocked?
    decreases if Wrapped(s.d, now) then 1 else 0, DueCount(s.d, s.d.current, now)
  {
    if OutcomeOf(s.d, now).Blocked? {
      k := 0;
    } else {
      PassProgresses(s, now);
      hide Step, Safe, Enabled, OutcomeOf, DueCount, Wrapped;
      var rest := GetsToBlock(Step(s, Pass(now)), now);
      k := rest + 1;
      assert Passes(now, k)[1..] == Passes(now, rest);
    }
  }

  lemma PassedOn(d: Daemon, now: nat)
    requires Inv(d, {}, now) && OnTime(d, now)
    ensures Passed(d, now).last == now
  {
    SampleKeeps(d, {}, now);
    if OutcomeOf(d, now) == Processed {
      WrappedExact(d, now);
      HeadDueExact(d, now);
    }
  }

  lemma {:induction false} DueCountSample(d: Daemon, list: seq<Id>, now: nat)
    ensures DueCount(d.(last := now), list, now) == DueCount(d, list, now)
  {
    if list != [] { DueCountSample(d, list[1..], now); }
  }

  // The timer lists are the lists of list.c.

  function ExpiryValues(timers: map<Id, Timer>, list: seq<Id>): (v: seq<nat>)
    requires forall u :: u in list ==> u in timers
    ensures |v| == |list|
  {
    seq(|list|, i requires 0 <= i < |list| => timers[list[i]].value)
  }

  /** A timer joins a list where vListInsert puts it: behind all that expire no later. */
  lemma {:induction false} JoinsLikeListInsert(timers: map<Id, Timer>, list: seq<Id>, id: Id)
    requires id in timers && forall u :: u in list ==> u in timers
    ensures Inserted(timers, list, id) == Rings.PutAt(list, Rings.FirstAbove(ExpiryValues(timers, list), timers[id].value), id)
  {
    var values := ExpiryValues(timers, list);
    if list == [] || timers[list[0]].value > timers[id].value {
      assert Rings.FirstAbove(values, timers[id].value) == 0;
    } else {
      JoinsLikeListInsert(timers, list[1..], id);
      assert values[1..] == ExpiryValues(timers, list[1..]);
      PutBehind(list, Rings.FirstAbove(values[1..], timers[id].value), id);
    }
  }

  lemma PutBehind(list: seq<Id>, at: nat, id: Id)
    requires list != [] && at <= |list| - 1
    ensures Rings.PutAt(list, 1 + at, id) == [list[0]] + Rings.PutAt(list[1..], at, id)
  {
  }
}
