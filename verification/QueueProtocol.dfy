/** The blocking protocol of queue.c as interleaved atomic steps, one per critical section:
    any number of tasks send, receive, peek, take and give with block times while interrupts
    send and receive at any moment.  No wake-up is lost. */
module QueueProtocol {
  import opened Sequences
  import opened QueueStorage
  import opened QueueCore

  datatype Call = Receive | Peek | Send(item: Item, position: Position)

  predicate Reads(call: Call) { !call.Send? }

  /** What a task does after it has released the lock. */
  datatype Next = Block | Retry | GiveUp

  /** Where a task is inside its call. */
  datatype Phase =
    | Idle
    | Try(call: Call)                    // before the first critical section, or blocked on an event list
    | Missed(call: Call)                 // could not proceed; about to suspend the scheduler
    | Suspended(call: Call)              // about to lock the queue
    | Locked(call: Call)                 // about to look at the clock and the queue again
    | Committed(call: Call)              // about to join the event list
    | Unlocking(call: Call, next: Next)  // before the first half of prvUnlockQueue
    | Unlocked(call: Call, next: Next)   // before the second half
    | Resuming(call: Call, next: Next)   // about to resume the scheduler
    | Final(call: Call)                  // timed out; a reader looks once more

  datatype Holder = NoOne | Task(t: Task)

  datatype State = State(
    q: Queue,
    roster: seq<Task>,        // the tasks that exist
    phase: map<Task, Phase>,
    holder: Holder,           // the task that suspended the scheduler
    wokenReaders: seq<Task>,  // taken off the receivers' list by a wake-up, not yet retried
    wokenSenders: seq<Task>)

  datatype Action =
    | Start(t: Task, call: Call)
    | StartRestricted(t: Task)  // vQueueWaitForMessageRestricted: the timer daemon skips the first attempt
    | Attempt(t: Task, block: bool)
    | SuspendAll(t: Task)
    | LockIt(t: Task)
    | Look(t: Task, expired: bool)
    | Place(t: Task, at: nat)
    | UnlockFirst(t: Task)
    | UnlockSecond(t: Task)
    | ResumeAll(t: Task)
    | LastLook(t: Task)
    | TimeOut(t: Task)
    | InterruptSend(item: Item, position: Position)
    | InterruptReceive

  /** uxTaskGetNumberOfTasks. */
  function Tasks(s: State): nat { |s.roster| }

  predicate Listed(s: State, t: Task) { t in s.q.receivers || t in s.q.senders }

  predicate Fits(q: Queue, item: Item, position: Position) {
    |item| == q.itemSize && (position == Overwrite ==> q.length == 1 && q.itemSize > 0)
  }

  /** A task can take a step when no other task has the scheduler suspended and it is not blocked. */
  predicate Enabled(s: State, a: Action) {
    match a
    case InterruptSend(item, position) => Fits(s.q, item, position) && s.q.HasRoomFor(position)
    case InterruptReceive => s.q.items != []
    case TimeOut(t) => s.holder == NoOne && Listed(s, t)
    case Start(t, call) =>
      && t in s.phase && s.phase[t] == Idle && s.holder == NoOne
      && (call.Send? ==> Fits(s.q, call.item, call.position))
    case StartRestricted(t) => t in s.phase && s.phase[t] == Idle && s.holder == NoOne
    case Attempt(t, _) => t in s.phase && s.phase[t].Try? && !Listed(s, t) && s.holder == NoOne
    case SuspendAll(t) => t in s.phase && s.phase[t].Missed? && s.holder == NoOne
    case LockIt(t) => t in s.phase && s.phase[t].Suspended?
    case Look(t, _) => t in s.phase && s.phase[t].Locked?
    case Place(t, at) =>
      && t in s.phase && s.phase[t].Committed?
      && at <= |if Reads(s.phase[t].call) then s.q.receivers else s.q.senders|
    case UnlockFirst(t) => t in s.phase && s.phase[t].Unlocking?
    case UnlockSecond(t) => t in s.phase && s.phase[t].Unlocked?
    case ResumeAll(t) => t in s.phase && s.phase[t].Resuming?
    case LastLook(t) => t in s.phase && s.phase[t].Final? && s.holder == NoOne
  }

  predicate CanProceed(q: Queue, call: Call) {
    if call.Send? then q.HasRoomFor(call.position) else q.items != []
  }

  /** The first critical section of a call that can proceed. */
  function Proceed(q: Queue, call: Call): Queue
    requires CanProceed(q, call)
  {
    match call
    case Receive => TaskReceive(q)
    case Peek => TaskPeek(q)
    case Send(item, position) => TaskSend(q, item, position)
  }

  function WakesReaders(q: Queue, call: Call): seq<Task> {
    if call.Receive? then [] else Woken(q.receivers, 1)
  }

  function WakesSenders(q: Queue, call: Call): seq<Task> {
    if call.Receive? then Woken(q.senders, 1) else []
  }

  /** A new queue state, and the tasks woken on the way. */
  function Moved(s: State, q: Queue, readers: seq<Task>, senders: seq<Task>): State {
    s.(q := q, wokenReaders := s.wokenReaders + readers, wokenSenders := s.wokenSenders + senders)
  }

  function Entering(s: State, t: Task, p: Phase): State {
    s.(phase := s.phase[t := p])
  }

  function Retried(s: State, t: Task): State {
    s.(wokenReaders := Without(s.wokenReaders, t), wokenSenders := Without(s.wokenSenders, t))
  }

  function Apply(s: State, a: Action): State
    requires Enabled(s, a)
  {
    match a
    case Start(t, call) => s.(phase := s.phase[t := Try(call)])
    case StartRestricted(t) => s.(phase := s.phase[t := Missed(Receive)])
    case Attempt(t, block) =>
      var call := s.phase[t].call;
      if CanProceed(s.q, call) then
        Moved(Entering(Retried(s, t), t, Idle), Proceed(s.q, call), WakesReaders(s.q, call), WakesSenders(s.q, call))
      else Entering(Retried(s, t), t, if block then Missed(call) else Idle)
    case SuspendAll(t) => s.(phase := s.phase[t := Suspended(s.phase[t].call)], holder := Holder.Task(t))
    case LockIt(t) => s.(q := Lock(s.q), phase := s.phase[t := Locked(s.phase[t].call)])
    case Look(t, expired) =>
      var call := s.phase[t].call;
      s.(phase := s.phase[t :=
        if expired then Unlocking(call, GiveUp)
        else if (if Reads(call) then s.q.items == [] else |s.q.items| == s.q.length) then Committed(call)
        else Unlocking(call, Retry)])
    case Place(t, at) =>
      var call := s.phase[t].call;
      var q := if Reads(call) then s.q.(receivers := s.q.receivers[..at] + [t] + s.q.receivers[at..])
               else s.q.(senders := s.q.senders[..at] + [t] + s.q.senders[at..]);
      s.(q := q, phase := s.phase[t := Unlocking(call, Block)])
    case UnlockFirst(t) =>
      Moved(Entering(s, t, Unlocked(s.phase[t].call, s.phase[t].next)),
            UnlockTx(s.q), Woken(s.q.receivers, s.q.txLock), [])
    case UnlockSecond(t) =>
      Moved(Entering(s, t, Resuming(s.phase[t].call, s.phase[t].next)),
            UnlockRx(s.q), [], Woken(s.q.senders, s.q.rxLock))
    case ResumeAll(t) =>
      var call := s.phase[t].call;
      s.(holder := NoOne, phase := s.phase[t :=
        if s.phase[t].next != GiveUp then Try(call) else if Reads(call) then Final(call) else Idle])
    case LastLook(t) =>
      s.(phase := s.phase[t := if s.q.items == [] then Idle else Try(s.phase[t].call)])
    case TimeOut(t) =>
      s.(q := s.q.(receivers := Without(s.q.receivers, t), senders := Without(s.q.senders, t)))
    case InterruptSend(item, position) =>
      Moved(s, IsrSend(s.q, item, position, Tasks(s)),
            if s.q.txLock == UNLOCKED then Woken(s.q.receivers, 1) else [], [])
    case InterruptReceive =>
      Moved(s, IsrReceive(s.q, Tasks(s)), [],
            if s.q.rxLock == UNLOCKED then Woken(s.q.senders, 1) else [])
  }

  // The invariant.

  /** In its call and not yet back at the top of the loop, or blocked there. */
  predicate Waits(p: Phase) {
    p.Try? || ((p.Unlocking? || p.Unlocked? || p.Resuming?) && p.next == Block)
  }

  predicate HasSchedulerSuspended(p: Phase) {
    p.Suspended? || p.Locked? || p.Committed? || p.Unlocking? || p.Unlocked? || p.Resuming?
  }

  predicate HoldsTxLock(p: Phase) { p.Locked? || p.Committed? || p.Unlocking? }

  predicate HoldsRxLock(p: Phase) { HoldsTxLock(p) || p.Unlocked? }

  predicate WaitsToReceive(s: State, t: Task) {
    t in s.phase && Waits(s.phase[t]) && Reads(s.phase[t].call)
  }

  predicate WaitsToSend(s: State, t: Task) {
    && t in s.phase && Waits(s.phase[t])
    && !Reads(s.phase[t].call) && s.phase[t].call.position != Overwrite
  }

  predicate Overwrites(p: Phase) {
    !p.Idle? && p.call.Send? && p.call.position == Overwrite
  }

  predicate Joins(s: State, toReceive: bool) {
    && s.holder.Task? && s.holder.t in s.phase
    && s.phase[s.holder.t].Committed? && Reads(s.phase[s.holder.t].call) == toReceive
  }

  /** Everything but the counting: who is where, and when the locks are held. */
  ghost predicate Shape(s: State) {
    && |s.q.items| <= s.q.length && Tasks(s) <= INT8_MAX
    && (forall t :: t in s.phase ==> t in s.roster)
    && UNLOCKED <= s.q.txLock <= Tasks(s) && UNLOCKED <= s.q.rxLock <= Tasks(s)
    && (forall t :: t in s.q.receivers || t in s.wokenReaders ==> WaitsToReceive(s, t))
    && (forall t :: t in s.q.senders || t in s.wokenSenders ==> WaitsToSend(s, t))
    && (forall t :: t in s.phase ==> (HasSchedulerSuspended(s.phase[t]) <==> s.holder == Holder.Task(t)))
    && (forall t :: t in s.phase && Overwrites(s.phase[t]) ==> s.phase[t].Try? && s.q.length == 1)
    && (s.holder.Task? ==>
          && s.holder.t in s.phase
          && (HoldsTxLock(s.phase[s.holder.t]) <==> s.q.txLock >= 0)
          && (HoldsRxLock(s.phase[s.holder.t]) <==> s.q.rxLock >= 0))
    && (s.holder.NoOne? ==> s.q.txLock == UNLOCKED && s.q.rxLock == UNLOCKED)
  }

  /** One direction of the queue: what there is to take (items or free slots), who was woken
      for it, the lock count standing in for wake-ups, and who still waits. */
  datatype Side = Side(supply: int, woken: seq<Task>, lock: int, list: seq<Task>)

  function ReceiveSide(s: State): Side { Side(|s.q.items|, s.wokenReaders, s.q.txLock, s.q.receivers) }

  function SendSide(s: State): Side { Side(s.q.Free(), s.wokenSenders, s.q.rxLock, s.q.senders) }

  /** Every unit of supply is promised to a woken task or to the lock count, unless the lock
      count is enough to wake everybody, including `joining` more. */
  predicate Covered(x: Side, joining: nat) {
    x.supply <= |x.woken| + Max(x.lock, 0) || x.lock >= |x.list| + joining
  }

  ghost predicate SideOk(x: Side, committed: bool) {
    && Distinct(x.woken + x.list)
    && (x.list != [] ==> Covered(x, 0))
    && (committed ==> Covered(x, 1))
  }

  ghost predicate Inv(s: State) {
    && Shape(s)
    && SideOk(ReceiveSide(s), Joins(s, true))
    && SideOk(SendSide(s), Joins(s, false))
  }

  // One direction at a time.

  /** `count` wake-ups move that many tasks, or all there are, from the list to the woken ones. */
  function WakeSome(x: Side, count: int, supply: int, lock: int): Side {
    Side(supply, x.woken + Woken(x.list, count), lock, Unwoken(x.list, count))
  }

  function GiveUpClaim(x: Side, t: Task): Side { x.(woken := Without(x.woken, t)) }

  lemma WakeSomeKeepsOrder(x: Side, count: int, supply: int, lock: int)
    ensures WakeSome(x, count, supply, lock).woken + WakeSome(x, count, supply, lock).list == x.woken + x.list
  {
    var a, b, c := x.woken, Woken(x.list, count), Unwoken(x.list, count);
    assert b + c == x.list;
    Associative(a, b, c);
  }

  lemma Associative(a: seq<Task>, b: seq<Task>, c: seq<Task>)
    ensures (a + b) + c == a + (b + c)
  {
  }

  /** Supply that arrives with a wake-up stays covered. */
  lemma DeliverOk(x: Side, supply: int)
    requires SideOk(x, false) && x.lock == UNLOCKED && supply <= x.supply + 1
    ensures SideOk(WakeSome(x, 1, supply, UNLOCKED), false)
  {
    WakeSomeKeepsOrder(x, 1, supply, UNLOCKED);
  }

  /** Supply that arrives while the queue is locked is counted, up to the number of tasks. */
  lemma CountOk(x: Side, supply: int, tasks: nat, committed: bool)
    requires SideOk(x, committed) && x.lock >= 0 && supply <= x.supply + 1
    requires tasks >= |x.list| + if committed then 1 else 0
    ensures SideOk(x.(supply := supply, lock := Counted(x.lock, tasks)), committed)
  {
  }

  lemma FewerOk(x: Side, supply: int, committed: bool)
    requires SideOk(x, committed) && supply <= x.supply
    ensures SideOk(x.(supply := supply), committed)
  {
  }

  /** Releasing the lock turns its count into wake-ups. */
  lemma UnlockOk(x: Side)
    requires SideOk(x, false) && x.lock >= 0
    ensures SideOk(WakeSome(x, x.lock, x.supply, UNLOCKED), false)
  {
    WakeSomeKeepsOrder(x, x.lock, x.supply, UNLOCKED);
  }

  /** A woken task that retries gives up its claim: it takes one unit, or there was none. */
  lemma RetryOk(x: Side, t: Task, supply: int, committed: bool)
    requires SideOk(x, committed)
    requires supply <= 0 || supply < x.supply || (t !in x.woken && supply <= x.supply)
    ensures SideOk(GiveUpClaim(x, t).(supply := supply), committed)
  {
    RetryDistinct(x, t);
  }

  lemma RetryDistinct(x: Side, t: Task)
    requires Distinct(x.woken + x.list)
    ensures Distinct(GiveUpClaim(x, t).woken + x.list)
    ensures |GiveUpClaim(x, t).woken| >= |x.woken| - 1
    ensures t !in x.woken ==> GiveUpClaim(x, t).woken == x.woken
  {
    DistinctParts(x.woken, x.list);
    WithoutTaskOk(x.woken, t);
    DistinctParts(Without(x.woken, t), x.list);
  }

  /** A peek passes its wake-up on. */
  lemma PeekOk(x: Side, t: Task)
    requires SideOk(x, false) && x.lock == UNLOCKED
    ensures SideOk(WakeSome(GiveUpClaim(x, t), 1, x.supply, UNLOCKED), false)
  {
    RetryDistinct(x, t);
    WakeSomeKeepsOrder(GiveUpClaim(x, t), 1, x.supply, UNLOCKED);
  }

  lemma {:induction false} WithoutTaskOk(list: seq<Task>, t: Task)
    requires Distinct(list)
    ensures Distinct(Without(list, t)) && |list| - 1 <= |Without(list, t)| <= |list|
    ensures forall u :: u in Without(list, t) <==> u in list && u != t
    ensures t !in list ==> Without(list, t) == list
  {
    if list != [] {
      var rest := Without(list[1..], t);
      WithoutTaskOk(list[1..], t);
      assert list == [list[0]] + list[1..];
      assert list[0] !in rest;
    }
  }

  lemma DistinctParts(a: seq<Task>, b: seq<Task>)
    ensures Distinct(a + b) <==> Distinct(a) && Distinct(b) && forall t :: t in a ==> t !in b
  {
    var s := a + b;
    assert forall i :: 0 <= i < |a| ==> s[i] == a[i];
    assert forall j :: 0 <= j < |b| ==> s[|a| + j] == b[j];
    if Distinct(s) {
      forall i, j | 0 <= i < j < |b| ensures b[i] != b[j] {
        assert s[|a| + i] != s[|a| + j];
      }
      forall t | t in a ensures t !in b {
        var i :| 0 <= i < |a| && a[i] == t;
        forall j | 0 <= j < |b| ensures b[j] != t {
          assert s[i] != s[|a| + j];
        }
      }
    }
    if Distinct(a) && Distinct(b) && forall t :: t in a ==> t !in b {
      forall i, j | 0 <= i < j < |s| ensures s[i] != s[j] {
        if i < |a| { assert a[i] in a; }
      }
    }
  }

  lemma InsertDistinct(woken: seq<Task>, list: seq<Task>, at: nat, t: Task)
    requires Distinct(woken + list) && at <= |list| && t !in list && t !in woken
    ensures Distinct(woken + (list[..at] + [t] + list[at..]))
  {
    var more := list[..at] + [t] + list[at..];
    DistinctParts(woken, list);
    assert Distinct(more);
    DistinctParts(woken, more);
  }

  lemma LeaveDistinct(woken: seq<Task>, list: seq<Task>, t: Task)
    requires Distinct(woken + list)
    ensures Distinct(woken + Without(list, t))
  {
    DistinctParts(woken, list);
    WithoutTaskOk(list, t);
    DistinctParts(woken, Without(list, t));
  }

  /** A list of distinct tasks is no longer than the roster. */
  lemma {:induction false} FitsRoster(list: seq<Task>, roster: seq<Task>)
    requires Distinct(list) && forall t :: t in list ==> t in roster
    ensures |list| <= |roster|
  {
    if list != [] {
      DropsOut(roster, list[0]);
      FitsRoster(list[1..], Without(roster, list[0]));
    }
  }

  lemma {:induction false} DropsOut(roster: seq<Task>, t: Task)
    ensures |Without(roster, t)| <= |roster| - if t in roster then 1 else 0
    ensures forall u :: u in roster && u != t ==> u in Without(roster, t)
  {
    if roster != [] {
      DropsOut(roster[1..], t);
      assert roster == [roster[0]] + roster[1..];
    }
  }

  // Every step keeps the invariant.

  /** What a step of task `t` leaves alone when it changes neither lists nor claims. */
  lemma LocalShape(s: State, a: Action)
    requires Shape(s) && Enabled(s, a)
    requires a.Start? || a.StartRestricted? || a.SuspendAll? || a.LockIt? || a.Look? || a.ResumeAll? || a.LastLook?
    ensures Shape(Apply(s, a))
  {
    var t, n := a.t, Apply(s, a);
    forall u | u in n.q.receivers || u in n.wokenReaders ensures WaitsToReceive(n, u) { assert WaitsToReceive(s, u); }
    forall u | u in n.q.senders || u in n.wokenSenders ensures WaitsToSend(n, u) { assert WaitsToSend(s, u); }
  }

  predicate Involved(s: State, t: Task) {
    Listed(s, t) || t in s.wokenReaders || t in s.wokenSenders
  }

  /** Tasks may move from the event lists to the woken ones, whatever else the queue does. */
  lemma MovedShape(s: State, q: Queue, readers: seq<Task>, senders: seq<Task>)
    requires Shape(s) && |q.items| <= q.length == s.q.length
    requires forall u :: u in q.receivers || u in readers ==> u in s.q.receivers
    requires forall u :: u in q.senders || u in senders ==> u in s.q.senders
    requires q.txLock == s.q.txLock || (s.q.txLock >= 0 && 0 <= q.txLock <= Tasks(s))
    requires q.rxLock == s.q.rxLock || (s.q.rxLock >= 0 && 0 <= q.rxLock <= Tasks(s))
    ensures Shape(Moved(s, q, readers, senders))
  {
    var n := Moved(s, q, readers, senders);
    forall u | u in n.q.receivers || u in n.wokenReaders ensures WaitsToReceive(n, u) { assert WaitsToReceive(s, u); }
    forall u | u in n.q.senders || u in n.wokenSenders ensures WaitsToSend(n, u) { assert WaitsToSend(s, u); }
  }

  /** A task moves on inside its call. */
  lemma EnteringShape(s: State, t: Task, p: Phase)
    requires Shape(s) && t in s.phase
    requires Involved(s, t) ==> !p.Idle? && Waits(p) && p.call == s.phase[t].call
    requires Overwrites(p) ==> p.Try? && s.q.length == 1
    requires !HasSchedulerSuspended(p) && !HasSchedulerSuspended(s.phase[t])
    ensures Shape(Entering(s, t, p))
  {
    var n := Entering(s, t, p);
    forall u | u in n.q.receivers || u in n.wokenReaders ensures WaitsToReceive(n, u) { assert WaitsToReceive(s, u); }
    forall u | u in n.q.senders || u in n.wokenSenders ensures WaitsToSend(n, u) { assert WaitsToSend(s, u); }
  }

  lemma RetriedShape(s: State, t: Task)
    requires Shape(s) && t in s.phase && !Listed(s, t)
    requires Distinct(s.wokenReaders) && Distinct(s.wokenSenders)
    ensures Shape(Retried(s, t)) && !Involved(Retried(s, t), t)
  {
    var n := Retried(s, t);
    WithoutTaskOk(s.wokenReaders, t);
    WithoutTaskOk(s.wokenSenders, t);
    forall u | u in n.q.receivers || u in n.wokenReaders ensures WaitsToReceive(n, u) { assert WaitsToReceive(s, u); }
    forall u | u in n.q.senders || u in n.wokenSenders ensures WaitsToSend(n, u) { assert WaitsToSend(s, u); }
  }

  lemma AttemptShape(s: State, t: Task, block: bool)
    requires Inv(s) && Enabled(s, Attempt(t, block))
    ensures Shape(Apply(s, Attempt(t, block)))
  {
    var call := s.phase[t].call;
    DistinctParts(s.wokenReaders, s.q.receivers);
    DistinctParts(s.wokenSenders, s.q.senders);
    RetriedShape(s, t);
    if CanProceed(s.q, call) {
      EnteringShape(Retried(s, t), t, Idle);
      MovedShape(Entering(Retried(s, t), t, Idle), Proceed(s.q, call), WakesReaders(s.q, call), WakesSenders(s.q, call));
    } else {
      EnteringShape(Retried(s, t), t, if block then Missed(call) else Idle);
    }
  }

  /** A task makes its attempt at the unlocked queue, and its claim is on the side it is after. */
  lemma AttemptAlone(s: State, t: Task, block: bool)
    requires Shape(s) && Enabled(s, Attempt(t, block))
    ensures !Joins(s, true) && !Joins(s, false)
    ensures CanProceed(s.q, s.phase[t].call) ==> Proceeds(s, t)
    ensures !CanProceed(s.q, s.phase[t].call) ==>
              if Reads(s.phase[t].call) then s.q.items == [] && t !in s.wokenSenders
              else s.q.Free() <= 0 && t !in s.wokenReaders
    ensures |s.q.items| <= s.q.length
    ensures s.phase[t].call.Send? && s.phase[t].call.position == Overwrite ==> t !in s.wokenSenders && s.q.length == 1
  {
    assert t in s.wokenReaders ==> WaitsToReceive(s, t);
    assert t in s.wokenSenders ==> WaitsToSend(s, t);
  }

  lemma AttemptSides(s: State, t: Task, block: bool)
    requires Inv(s) && Enabled(s, Attempt(t, block))
    ensures SideOk(ReceiveSide(Apply(s, Attempt(t, block))), false)
    ensures SideOk(SendSide(Apply(s, Attempt(t, block))), false)
  {
    hide Shape, SideOk, WakeSome, Joins;
    var call := s.phase[t].call;
    AttemptAlone(s, t, block);
    var r, w := ReceiveSide(s), SendSide(s);
    if CanProceed(s.q, call) {
      ProceedingSides(s, t);
      match call
      case Receive =>
        RetryOk(r, t, r.supply - 1, false);
        RetryOk(w, t, w.supply, false);
        DeliverOk(GiveUpClaim(w, t), w.supply + 1);
      case Peek =>
        PeekOk(r, t);
        RetryOk(w, t, w.supply, false);
      case Send(item, position) =>
        RetryOk(r, t, r.supply, false);
        DeliverOk(GiveUpClaim(r, t), |Proceed(s.q, call).items|);
        RetryOk(w, t, Proceed(s.q, call).Free(), false);
    } else {
      RetryOk(r, t, |s.q.items|, false);
      RetryOk(w, t, s.q.Free(), false);
    }
  }

  predicate Proceeds(s: State, t: Task) {
    && s.q.txLock == s.q.rxLock == UNLOCKED
    && t in s.phase && s.phase[t].Try? && CanProceed(s.q, s.phase[t].call)
    && (t in s.wokenReaders ==> Reads(s.phase[t].call))
    && (t in s.wokenSenders ==> !Reads(s.phase[t].call))
  }

  function AfterProceeding(s: State, t: Task): State
    requires t in s.phase && !s.phase[t].Idle? && CanProceed(s.q, s.phase[t].call)
  {
    var call := s.phase[t].call;
    Moved(Entering(Retried(s, t), t, Idle), Proceed(s.q, call), WakesReaders(s.q, call), WakesSenders(s.q, call))
  }

  /** What a successful first critical section does to the two directions. */
  lemma ProceedingSides(s: State, t: Task)
    requires Proceeds(s, t)
    ensures var call, n, r, w := s.phase[t].call, AfterProceeding(s, t), ReceiveSide(s), SendSide(s);
            && (call.Receive? ==>
                  && ReceiveSide(n) == GiveUpClaim(r, t).(supply := r.supply - 1)
                  && SendSide(n) == WakeSome(GiveUpClaim(w, t), 1, w.supply + 1, UNLOCKED))
            && (call.Peek? ==>
                  && ReceiveSide(n) == WakeSome(GiveUpClaim(r, t), 1, r.supply, UNLOCKED)
                  && SendSide(n) == GiveUpClaim(w, t))
            && (call.Send? ==>
                  && ReceiveSide(n) == WakeSome(GiveUpClaim(r, t), 1, |n.q.items|, UNLOCKED)
                  && SendSide(n) == GiveUpClaim(w, t).(supply := n.q.Free()))
  {
  }

  /** The holder of the scheduler releases one of the two lock counts. */
  lemma UnlockShape(s: State, a: Action)
    requires Shape(s) && Enabled(s, a) && (a.UnlockFirst? || a.UnlockSecond?)
    ensures Shape(Apply(s, a))
  {
    var t, n := a.t, Apply(s, a);
    forall u | u in n.q.receivers || u in n.wokenReaders ensures WaitsToReceive(n, u) { assert WaitsToReceive(s, u); }
    forall u | u in n.q.senders || u in n.wokenSenders ensures WaitsToSend(n, u) { assert WaitsToSend(s, u); }
  }

  /** Nobody has committed to joining a list while a lock is being released. */
  lemma UnlockAlone(s: State, a: Action)
    requires Shape(s) && Enabled(s, a) && (a.UnlockFirst? || a.UnlockSecond?)
    ensures !Joins(s, true) && !Joins(s, false) && !Joins(Apply(s, a), true) && !Joins(Apply(s, a), false)
    ensures a.UnlockFirst? ==> s.q.txLock >= 0
    ensures a.UnlockSecond? ==> s.q.rxLock >= 0
  {
  }

  lemma UnlockFirstKeeps(s: State, t: Task)
    requires Inv(s) && Enabled(s, UnlockFirst(t))
    ensures Inv(Apply(s, UnlockFirst(t)))
  {
    hide Shape, SideOk;
    var n := Apply(s, UnlockFirst(t));
    UnlockShape(s, UnlockFirst(t));
    UnlockAlone(s, UnlockFirst(t));
    UnlockOk(ReceiveSide(s));
    assert ReceiveSide(n) == WakeSome(ReceiveSide(s), s.q.txLock, |s.q.items|, UNLOCKED);
    assert SendSide(n) == SendSide(s);
  }

  lemma UnlockSecondKeeps(s: State, t: Task)
    requires Inv(s) && Enabled(s, UnlockSecond(t))
    ensures Inv(Apply(s, UnlockSecond(t)))
  {
    hide Shape, SideOk;
    var n := Apply(s, UnlockSecond(t));
    UnlockShape(s, UnlockSecond(t));
    UnlockAlone(s, UnlockSecond(t));
    UnlockOk(SendSide(s));
    assert SendSide(n) == WakeSome(SendSide(s), s.q.rxLock, s.q.Free(), UNLOCKED);
    assert ReceiveSide(n) == ReceiveSide(s);
  }

  lemma PlaceKeeps(s: State, t: Task, at: nat)
    requires Inv(s) && Enabled(s, Place(t, at))
    ensures Inv(Apply(s, Place(t, at)))
  {
    var n := Apply(s, Place(t, at));
    assert !Waits(s.phase[t]);
    assert t in s.q.receivers || t in s.wokenReaders ==> WaitsToReceive(s, t);
    assert t in s.q.senders || t in s.wokenSenders ==> WaitsToSend(s, t);
    if Reads(s.phase[t].call) {
      InsertDistinct(s.wokenReaders, s.q.receivers, at, t);
    } else {
      InsertDistinct(s.wokenSenders, s.q.senders, at, t);
    }
    forall u | u in n.q.receivers || u in n.wokenReaders ensures WaitsToReceive(n, u) {
      assert u != t ==> WaitsToReceive(s, u);
    }
    forall u | u in n.q.senders || u in n.wokenSenders ensures WaitsToSend(n, u) {
      assert u != t ==> WaitsToSend(s, u);
    }
  }

  lemma TimeOutShape(s: State, t: Task)
    requires Shape(s) && Enabled(s, TimeOut(t))
    ensures Shape(Apply(s, TimeOut(t))) && !Joins(s, true) && !Joins(s, false)
    ensures !Joins(Apply(s, TimeOut(t)), true) && !Joins(Apply(s, TimeOut(t)), false)
    ensures s.q.rxLock == s.q.txLock == UNLOCKED
  {
    var n := Apply(s, TimeOut(t));
    forall u | u in n.q.receivers || u in n.wokenReaders ensures WaitsToReceive(n, u) { assert WaitsToReceive(s, u); }
    forall u | u in n.q.senders || u in n.wokenSenders ensures WaitsToSend(n, u) { assert WaitsToSend(s, u); }
  }

  /** A list that gets shorter needs no more cover. */
  lemma LeaveOk(x: Side, t: Task)
    requires SideOk(x, false) && x.lock == UNLOCKED
    ensures SideOk(x.(list := Without(x.list, t)), false)
  {
    LeaveDistinct(x.woken, x.list, t);
  }

  lemma TimeOutKeeps(s: State, t: Task)
    requires Inv(s) && Enabled(s, TimeOut(t))
    ensures Inv(Apply(s, TimeOut(t)))
  {
    hide Shape, SideOk, Joins;
    TimeOutShape(s, t);
    LeaveOk(ReceiveSide(s), t);
    LeaveOk(SendSide(s), t);
  }

  /** The lock counts may be capped because no list is longer than the number of tasks. */
  lemma ListsFit(s: State)
    requires Inv(s)
    ensures |s.q.receivers| + (if Joins(s, true) then 1 else 0) <= Tasks(s)
    ensures |s.q.senders| + (if Joins(s, false) then 1 else 0) <= Tasks(s)
  {
    DistinctParts(s.wokenReaders, s.q.receivers);
    DistinctParts(s.wokenSenders, s.q.senders);
    forall u | u in s.q.receivers ensures u in s.roster { assert WaitsToReceive(s, u); }
    forall u | u in s.q.senders ensures u in s.roster { assert WaitsToSend(s, u); }
    FitsRoster(s.q.receivers, s.roster);
    FitsRoster(s.q.senders, s.roster);
    if s.holder.Task? && s.phase[s.holder.t].Committed? {
      var t := s.holder.t;
      assert t in s.q.receivers ==> WaitsToReceive(s, t);
      assert t in s.q.senders ==> WaitsToSend(s, t);
      FitsRoster([t] + s.q.receivers, s.roster);
      FitsRoster([t] + s.q.senders, s.roster);
    }
  }

  /** What an interrupt that sends does to the two directions. */
  lemma InterruptSendSides(s: State, item: Item, position: Position)
    requires Enabled(s, InterruptSend(item, position)) && |s.q.items| <= s.q.length
    ensures var n, r := Apply(s, InterruptSend(item, position)), ReceiveSide(s);
            && SendSide(n) == SendSide(s).(supply := n.q.Free())
            && n.q.Free() <= s.q.Free() && |n.q.items| <= |s.q.items| + 1
            && ReceiveSide(n) == if s.q.txLock == UNLOCKED then WakeSome(r, 1, |n.q.items|, UNLOCKED)
                                 else r.(supply := |n.q.items|, lock := Counted(r.lock, Tasks(s)))
  {
    hide Woken, Unwoken;
    assert s.wokenSenders + [] == s.wokenSenders && s.wokenReaders + [] == s.wokenReaders;
  }

  lemma InterruptSendShape(s: State, item: Item, position: Position)
    requires Shape(s) && Enabled(s, InterruptSend(item, position))
    ensures Shape(Apply(s, InterruptSend(item, position)))
    ensures var n := Apply(s, InterruptSend(item, position));
            Joins(n, true) == Joins(s, true) && Joins(n, false) == Joins(s, false)
    ensures UNLOCKED <= s.q.txLock && (s.q.txLock == UNLOCKED ==> !Joins(s, true)) && |s.q.items| <= s.q.length
  {
    MovedShape(s, IsrSend(s.q, item, position, Tasks(s)), if s.q.txLock == UNLOCKED then Woken(s.q.receivers, 1) else [], []);
  }

  lemma InterruptSendKeeps(s: State, item: Item, position: Position)
    requires Inv(s) && Enabled(s, InterruptSend(item, position))
    ensures Inv(Apply(s, InterruptSend(item, position)))
  {
    hide Shape, SideOk, Joins, WakeSome;
    var n := Apply(s, InterruptSend(item, position));
    InterruptSendShape(s, item, position);
    InterruptSendSides(s, item, position);
    ListsFit(s);
    if s.q.txLock == UNLOCKED {
      DeliverOk(ReceiveSide(s), |n.q.items|);
    } else {
      CountOk(ReceiveSide(s), |n.q.items|, Tasks(s), Joins(s, true));
    }
    FewerOk(SendSide(s), n.q.Free(), Joins(s, false));
  }

  lemma InterruptReceiveSides(s: State)
    requires Enabled(s, InterruptReceive)
    ensures var n, w := Apply(s, InterruptReceive), SendSide(s);
            && ReceiveSide(n) == ReceiveSide(s).(supply := |s.q.items| - 1)
            && n.q.Free() == s.q.Free() + 1
            && SendSide(n) == if s.q.rxLock == UNLOCKED then WakeSome(w, 1, n.q.Free(), UNLOCKED)
                              else w.(supply := n.q.Free(), lock := Counted(w.lock, Tasks(s)))
  {
    hide Woken, Unwoken;
    assert s.wokenSenders + [] == s.wokenSenders && s.wokenReaders + [] == s.wokenReaders;
  }

  lemma InterruptReceiveShape(s: State)
    requires Shape(s) && Enabled(s, InterruptReceive)
    ensures Shape(Apply(s, InterruptReceive))
    ensures var n := Apply(s, InterruptReceive);
            Joins(n, true) == Joins(s, true) && Joins(n, false) == Joins(s, false)
    ensures UNLOCKED <= s.q.rxLock && (s.q.rxLock == UNLOCKED ==> !Joins(s, false))
  {
    MovedShape(s, IsrReceive(s.q, Tasks(s)), [], if s.q.rxLock == UNLOCKED then Woken(s.q.senders, 1) else []);
  }

  lemma InterruptReceiveKeeps(s: State)
    requires Inv(s) && Enabled(s, InterruptReceive)
    ensures Inv(Apply(s, InterruptReceive))
  {
    hide Shape, SideOk, Joins, WakeSome;
    var n := Apply(s, InterruptReceive);
    InterruptReceiveShape(s);
    InterruptReceiveSides(s);
    ListsFit(s);
    if s.q.rxLock == UNLOCKED {
      DeliverOk(SendSide(s), n.q.Free());
    } else {
      CountOk(SendSide(s), n.q.Free(), Tasks(s), Joins(s, false));
    }
    FewerOk(ReceiveSide(s), |n.q.items|, Joins(s, true));
  }

  lemma LocalKeeps(s: State, a: Action)
    requires Inv(s) && Enabled(s, a)
    requires a.Start? || a.StartRestricted? || a.SuspendAll? || a.LockIt? || a.Look? || a.ResumeAll? || a.LastLook?
    ensures Inv(Apply(s, a))
  {
    LocalShape(s, a);
  }

  lemma StepKeepsInv(s: State, a: Action)
    requires Inv(s) && Enabled(s, a)
    ensures Inv(Apply(s, a))
  {
    match a
    case Attempt(t, block) => AttemptShape(s, t, block); AttemptSides(s, t, block);
    case Place(t, at) => PlaceKeeps(s, t, at);
    case UnlockFirst(t) => UnlockFirstKeeps(s, t);
    case UnlockSecond(t) => UnlockSecondKeeps(s, t);
    case TimeOut(t) => TimeOutKeeps(s, t);
    case InterruptSend(item, position) => InterruptSendKeeps(s, item, position);
    case InterruptReceive => InterruptReceiveKeeps(s);
    case _ => LocalKeeps(s, a);
  }

  // Whole runs.

  /** A fresh queue, or a counting semaphore with its initial count. */
  ghost predicate Init(s: State) {
    && s.q.receivers == [] && s.q.senders == [] && s.q.rxLock == s.q.txLock == UNLOCKED
    && |s.q.items| <= s.q.length
    && s.holder == NoOne && s.wokenReaders == [] && s.wokenSenders == []
    && Tasks(s) <= INT8_MAX && forall t :: t in s.phase ==> t in s.roster && s.phase[t] == Idle
  }

  ghost predicate Possible(s: State, run: seq<Action>)
    decreases |run|
  {
    run == [] || (Enabled(s, run[0]) && Possible(Apply(s, run[0]), run[1..]))
  }

  ghost function After(s: State, run: seq<Action>): State
    requires Possible(s, run)
    decreases |run|
  {
    if run == [] then s else After(Apply(s, run[0]), run[1..])
  }

  lemma {:induction false} RunKeepsInv(s: State, run: seq<Action>)
    requires Inv(s) && Possible(s, run)
    ensures Inv(After(s, run))
    decreases |run|
  {
    if run != [] {
      StepKeepsInv(s, run[0]);
      RunKeepsInv(Apply(s, run[0]), run[1..]);
    }
  }

  /** In every reachable state each queued item is promised to a woken reader or to the lock
      count, and each free slot to a woken sender; so an unlocked queue with nobody on the way
      never has both an item and a blocked reader, nor both a free slot and a blocked sender. */
  lemma NoLostWakeUp(s: State, run: seq<Action>)
    requires Init(s) && Possible(s, run)
    ensures var n := After(s, run);
            && (n.q.receivers != [] ==> |n.q.items| <= |n.wokenReaders| + Max(n.q.txLock, 0)
                                        || n.q.txLock >= |n.q.receivers|)
            && (n.q.senders != [] ==> n.q.Free() <= |n.wokenSenders| + Max(n.q.rxLock, 0)
                                      || n.q.rxLock >= |n.q.senders|)
            && (!n.q.Locked() && n.wokenReaders == [] ==> n.q.items == [] || n.q.receivers == [])
            && (!n.q.Locked() && n.wokenSenders == [] ==> n.q.Free() == 0 || n.q.senders == [])
  {
    RunKeepsInv(s, run);
  }

  /** The lock counts never run past the int8_t they are kept in, and only the task that has
      the scheduler suspended holds the lock. */
  lemma LockCountsFit(s: State, run: seq<Action>)
    requires Init(s) && Possible(s, run)
    ensures var n := After(s, run);
            && n.q.txLock <= INT8_MAX && n.q.rxLock <= INT8_MAX
            && (n.q.txLock < Tasks(n) ==> n.q.txLock != INT8_MAX)
            && (n.q.Locked() ==> n.holder.Task? && n.holder.t in n.phase && HoldsRxLock(n.phase[n.holder.t]))
  {
    RunKeepsInv(s, run);
  }

  // Nothing is lost, duplicated or reordered.

  function SentBy(s: State, a: Action): seq<Item>
    requires Enabled(s, a)
  {
    match a
    case Attempt(t, _) =>
      if s.phase[t].call.Send? && CanProceed(s.q, s.phase[t].call) then [s.phase[t].call.item] else []
    case InterruptSend(item, _) => [item]
    case _ => []
  }

  function TakenBy(s: State, a: Action): seq<Item>
    requires Enabled(s, a)
  {
    match a
    case Attempt(t, _) => if s.phase[t].call.Receive? && s.q.items != [] then [s.q.items[0]] else []
    case InterruptReceive => [s.q.items[0]]
    case _ => []
  }

  ghost function History(s: State, run: seq<Action>, sent: bool): seq<Item>
    requires Possible(s, run)
    decreases |run|
  {
    if run == [] then [] else
      (if sent then SentBy(s, run[0]) else TakenBy(s, run[0])) + History(Apply(s, run[0]), run[1..], sent)
  }

  predicate ToBack(a: Action) {
    match a
    case Start(_, call) => call.Send? ==> call.position == SendToBack
    case InterruptSend(_, position) => position == SendToBack
    case _ => true
  }

  ghost predicate OnlyToBack(s: State) {
    forall t :: t in s.phase && !s.phase[t].Idle? && s.phase[t].call.Send? ==> s.phase[t].call.position == SendToBack
  }

  lemma StepConserves(s: State, a: Action)
    requires Enabled(s, a) && OnlyToBack(s) && ToBack(a)
    ensures OnlyToBack(Apply(s, a))
    ensures TakenBy(s, a) + Apply(s, a).q.items == s.q.items + SentBy(s, a)
  {
  }

  /** First in, first out over whole runs: what was taken, followed by what is queued, is what
      was there followed by what was sent. */
  lemma {:induction false} Conservation(s: State, run: seq<Action>)
    requires Possible(s, run) && OnlyToBack(s) && forall i :: 0 <= i < |run| ==> ToBack(run[i])
    ensures History(s, run, false) + After(s, run).q.items == s.q.items + History(s, run, true)
    decreases |run|
  {
    if run != [] {
      var a, rest := run[0], run[1..];
      var n := Apply(s, a);
      StepConserves(s, a);
      Conservation(n, rest);
      Chained(TakenBy(s, a), History(n, rest, false), After(n, rest).q.items, n.q.items,
              s.q.items, SentBy(s, a), History(n, rest, true));
    }
  }

  lemma Chained(taken: seq<Item>, takenLater: seq<Item>, last: seq<Item>, middle: seq<Item>,
                first: seq<Item>, sent: seq<Item>, sentLater: seq<Item>)
    requires taken + middle == first + sent && takenLater + last == middle + sentLater
    ensures (taken + takenLater) + last == first + (sent + sentLater)
  {
    calc {
      (taken + takenLater) + last;
      taken + (takenLater + last);
      (taken + middle) + sentLater;
      first + (sent + sentLater);
    }
  }
}
