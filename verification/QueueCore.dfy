/** The parts of queue.c that run inside one critical section: copying an item, waking the
    task at the head of an event list, and the lock counts that stand in for wake-ups while a
    task is between prvLockQueue and prvUnlockQueue. */
module QueueCore {
  import opened Sequences
  import opened QueueStorage

  type Task = nat

  const UNLOCKED: int := -1          // queueUNLOCKED
  const LOCKED_UNMODIFIED: int := 0  // queueLOCKED_UNMODIFIED
  const INT8_MAX: int := 127         // queueINT8_MAX

  /** A queue as its callers see it; the event lists run from the task woken next. */
  datatype Queue = Queue(
    items: seq<Item>, length: nat, itemSize: nat,
    rxLock: int, txLock: int,
    receivers: seq<Task>, senders: seq<Task>)
  {
    predicate Locked() { txLock != UNLOCKED || rxLock != UNLOCKED }

    function Free(): int { length - |items| }

    predicate HasRoomFor(position: Position) { |items| < length || position == Overwrite }
  }

  /** The tasks that `count` wake-ups take off an event list. */
  function Woken(list: seq<Task>, count: int): (tasks: seq<Task>) {
    list[..Min(Max(count, 0), |list|)]
  }

  function Unwoken(list: seq<Task>, count: int): (tasks: seq<Task>) {
    list[Min(Max(count, 0), |list|)..]
  }

  /** prvIncrementQueueTxLock and its twin: capped at the number of tasks. */
  function Counted(lock: int, tasks: nat): int {
    if lock < tasks then lock + 1 else lock
  }

  /** A successful send or give from task level: it wakes a receiver whatever the lock counts say. */
  function TaskSend(q: Queue, item: Item, position: Position): Queue {
    q.(items := Sent(q.items, item, position), receivers := Unwoken(q.receivers, 1))
  }

  function TaskReceive(q: Queue): Queue
    requires q.items != []
  {
    q.(items := q.items[1..], senders := Unwoken(q.senders, 1))
  }

  function TaskPeek(q: Queue): Queue {
    q.(receivers := Unwoken(q.receivers, 1))
  }

  /** From an interrupt a locked queue only counts. */
  function IsrSend(q: Queue, item: Item, position: Position, tasks: nat): Queue {
    var sent := q.(items := Sent(q.items, item, position));
    if q.txLock == UNLOCKED then sent.(receivers := Unwoken(q.receivers, 1))
    else sent.(txLock := Counted(q.txLock, tasks))
  }

  function IsrReceive(q: Queue, tasks: nat): Queue
    requires q.items != []
  {
    var received := q.(items := q.items[1..]);
    if q.rxLock == UNLOCKED then received.(senders := Unwoken(q.senders, 1))
    else received.(rxLock := Counted(q.rxLock, tasks))
  }

  function Lock(q: Queue): Queue {
    q.(rxLock := if q.rxLock == UNLOCKED then LOCKED_UNMODIFIED else q.rxLock,
       txLock := if q.txLock == UNLOCKED then LOCKED_UNMODIFIED else q.txLock)
  }

  /** The first critical section of prvUnlockQueue. */
  function UnlockTx(q: Queue): Queue {
    q.(txLock := UNLOCKED, receivers := Unwoken(q.receivers, q.txLock))
  }

  /** The second one. */
  function UnlockRx(q: Queue): Queue {
    q.(rxLock := UNLOCKED, senders := Unwoken(q.senders, q.rxLock))
  }

  class QueueObject {
    const storage: Storage
    var rxLock: int
    var txLock: int
    var receivers: seq<Task>  // xTasksWaitingToReceive
    var senders: seq<Task>    // xTasksWaitingToSend

    ghost predicate Valid()
      reads this, storage, storage.buffer
    {
      storage.Valid()
    }

    ghost function View(): Queue
      reads this, storage
    {
      Queue(storage.items, storage.length, storage.itemSize, rxLock, txLock, receivers, senders)
    }

    constructor (length: nat, itemSize: nat)
      requires length >= 1
      ensures Valid() && fresh(storage) && fresh(storage.buffer)
      ensures View() == Queue([], length, itemSize, UNLOCKED, UNLOCKED, [], [])
    {
      storage := new Storage(length, itemSize);
      rxLock, txLock, receivers, senders := UNLOCKED, UNLOCKED, [], [];
    }

    /** xTaskRemoveFromEventList on xTasksWaitingToReceive, after the emptiness test. */
    method WakeReceiver() returns (woken: seq<Task>)
      modifies this`receivers
      ensures receivers == Unwoken(old(receivers), 1) && woken == Woken(old(receivers), 1)
    {
      woken := [];
      if receivers != [] {
        woken, receivers := [receivers[0]], receivers[1..];
      }
    }

    method WakeSender() returns (woken: seq<Task>)
      modifies this`senders
      ensures senders == Unwoken(old(senders), 1) && woken == Woken(old(senders), 1)
    {
      woken := [];
      if senders != [] {
        woken, senders := [senders[0]], senders[1..];
      }
    }

    /** The first critical section of xQueueGenericSend. */
    method TrySend(item: Item, position: Position) returns (sent: bool, woken: seq<Task>)
      requires Valid() && |item| == storage.itemSize
      requires position == Overwrite ==> storage.length == 1 && storage.itemSize > 0
      modifies this, storage, storage.buffer
      ensures Valid() && sent == old(View()).HasRoomFor(position)
      ensures sent ==> View() == TaskSend(old(View()), item, position) && woken == Woken(old(receivers), 1)
      ensures !sent ==> View() == old(View()) && woken == []
    {
      sent, woken := false, [];
      if storage.messagesWaiting < storage.length || position == Overwrite {
        storage.CopyToQueue(item, position);
        woken := WakeReceiver();
        sent := true;
      }
    }

    /** The first critical section of xQueueReceive and of xQueueSemaphoreTake. */
    method TryReceive() returns (item: Item, received: bool, woken: seq<Task>)
      requires Valid()
      modifies this, storage
      ensures Valid() && received == (old(storage.items) != [])
      ensures received ==> View() == TaskReceive(old(View())) && item == old(storage.items)[0]
                           && woken == Woken(old(senders), 1)
      ensures !received ==> View() == old(View()) && woken == []
    {
      item, received, woken := [], false, [];
      if storage.messagesWaiting > 0 {
        item := storage.Receive();
        woken := WakeSender();
        received := true;
      }
    }

    /** The first critical section of xQueuePeek. */
    method TryPeek() returns (item: Item, peeked: bool, woken: seq<Task>)
      requires Valid()
      modifies this, storage
      ensures Valid() && peeked == (old(storage.items) != [])
      ensures peeked ==> View() == TaskPeek(old(View())) && item == old(storage.items)[0]
                         && woken == Woken(old(receivers), 1)
      ensures !peeked ==> View() == old(View()) && woken == []
    {
      item, peeked, woken := [], false, [];
      if storage.messagesWaiting > 0 {
        item := storage.Peek();
        woken := WakeReceiver();
        peeked := true;
      }
    }

    /** xQueueGenericSendFromISR, and xQueueGiveFromISR for items of size 0. */
    method SendFromISR(item: Item, position: Position, tasks: nat) returns (sent: bool, woken: seq<Task>)
      requires Valid() && |item| == storage.itemSize
      requires position == Overwrite ==> storage.length == 1 && storage.itemSize > 0
      modifies this, storage, storage.buffer
      ensures Valid() && sent == old(View()).HasRoomFor(position)
      ensures sent ==> View() == IsrSend(old(View()), item, position, tasks)
                       && woken == if old(txLock) == UNLOCKED then Woken(old(receivers), 1) else []
      ensures !sent ==> View() == old(View()) && woken == []
    {
      sent, woken := false, [];
      if storage.messagesWaiting < storage.length || position == Overwrite {
        var lock := txLock;
        storage.CopyToQueue(item, position);
        if lock == UNLOCKED {
          woken := WakeReceiver();
        } else if lock < tasks {
          txLock := lock + 1;
        }
        sent := true;
      }
    }

    method ReceiveFromISR(tasks: nat) returns (item: Item, received: bool, woken: seq<Task>)
      requires Valid()
      modifies this, storage
      ensures Valid() && received == (old(storage.items) != [])
      ensures received ==> View() == IsrReceive(old(View()), tasks) && item == old(storage.items)[0]
                           && woken == if old(rxLock) == UNLOCKED then Woken(old(senders), 1) else []
      ensures !received ==> View() == old(View()) && woken == []
    {
      item, received, woken := [], false, [];
      if storage.messagesWaiting > 0 {
        var lock := rxLock;
        item := storage.Receive();
        if lock == UNLOCKED {
          woken := WakeSender();
        } else if lock < tasks {
          rxLock := lock + 1;
        }
        received := true;
      }
    }

    /** prvLockQueue. */
    method LockQueue()
      requires Valid()
      modifies this`rxLock, this`txLock
      ensures Valid() && View() == Lock(old(View()))
    {
      if rxLock == UNLOCKED {
        rxLock := LOCKED_UNMODIFIED;
      }
      if txLock == UNLOCKED {
        txLock := LOCKED_UNMODIFIED;
      }
    }

    /** The first loop of prvUnlockQueue. */
    method UnlockTransmit() returns (woken: seq<Task>)
      requires Valid()
      modifies this`txLock, this`receivers
      ensures Valid() && View() == UnlockTx(old(View())) && woken == Woken(old(receivers), old(txLock))
    {
      var lock := txLock;
      woken := [];
      while lock > LOCKED_UNMODIFIED
        invariant |woken| == old(txLock) - lock && lock >= Min(old(txLock), 0)
        invariant woken + receivers == old(receivers)
      {
        if receivers != [] {
          var head := WakeReceiver();
          woken := woken + head;
        } else {
          break;
        }
        lock := lock - 1;
      }
      txLock := UNLOCKED;
      assert |woken| == Min(Max(old(txLock), 0), |old(receivers)|);
      assert woken == old(receivers)[..|woken|] && receivers == old(receivers)[|woken|..];
    }

    /** The second one. */
    method UnlockReceive() returns (woken: seq<Task>)
      requires Valid()
      modifies this`rxLock, this`senders
      ensures Valid() && View() == UnlockRx(old(View())) && woken == Woken(old(senders), old(rxLock))
    {
      var lock := rxLock;
      woken := [];
      while lock > LOCKED_UNMODIFIED
        invariant |woken| == old(rxLock) - lock && lock >= Min(old(rxLock), 0)
        invariant woken + senders == old(senders)
      {
        if senders != [] {
          var head := WakeSender();
          woken := woken + head;
          lock := lock - 1;
        } else {
          break;
        }
      }
      rxLock := UNLOCKED;
      assert |woken| == Min(Max(old(rxLock), 0), |old(senders)|);
      assert woken == old(senders)[..|woken|] && senders == old(senders)[|woken|..];
    }
  }
}
