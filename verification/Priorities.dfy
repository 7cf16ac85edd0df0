/** Task priorities in tasks.c: the base priority, the priority in use, and the three
    functions that lend a mutex holder the priority of the tasks it keeps waiting. */
module Priorities {

  const MAX_PRIORITIES: nat := 5  // configMAX_PRIORITIES

  type Level = n: nat | n < MAX_PRIORITIES

  /** The part of a TCB that decides its priority; `eventValue` is the value of its event list item. */
  datatype Tcb = Tcb(priority: Level, base: Level, mutexesHeld: nat, eventValue: nat)

  /** The coding that sorts event lists by descending priority. */
  function EventValue(p: Level): nat { MAX_PRIORITIES - p }

  function MaxPriority(a: Level, b: Level): Level { if a < b then b else a }

  /** taskEVENT_LIST_ITEM_VALUE_IN_USE: an event group is borrowing the item value. */
  const IN_USE: nat := 0x8000_0000

  function Revalued(value: nat, p: Level): nat {
    if value < IN_USE then EventValue(p) else value
  }

  /** xTaskPriorityInherit: what it makes of the holder, and what it returns. */
  function Inherit(holder: Tcb, waiting: Level): (Tcb, bool) {
    if holder.priority < waiting then
      (holder.(priority := waiting, eventValue := Revalued(holder.eventValue, waiting)), true)
    else (holder, holder.base < waiting)
  }

  /** xTaskPriorityDisinherit, called by the holder that gives a mutex back. */
  function Disinherit(holder: Tcb): (Tcb, bool)
    requires holder.mutexesHeld > 0
  {
    var given := holder.(mutexesHeld := holder.mutexesHeld - 1);
    if given.priority != given.base && given.mutexesHeld == 0 then
      (given.(priority := given.base, eventValue := EventValue(given.base)), true)
    else (given, false)
  }

  /** vTaskPriorityDisinheritAfterTimeout. */
  function DisinheritAfterTimeout(holder: Tcb, highestWaiting: Level): Tcb {
    var use := MaxPriority(holder.base, highestWaiting);
    if holder.priority != use && holder.mutexesHeld == 1 then
      holder.(priority := use, eventValue := Revalued(holder.eventValue, use))
    else holder
  }

  /** pvTaskIncrementMutexHeldCount. */
  function Hold(t: Tcb): Tcb { t.(mutexesHeld := t.mutexesHeld + 1) }

  /** vTaskPrioritySet. */
  function SetPriority(t: Tcb, p: Level): Tcb {
    if t.base == p then t
    else t.(priority := if t.base == t.priority || p > t.priority then p else t.priority,
            base := p, eventValue := Revalued(t.eventValue, p))
  }

  /** What every task keeps: it never runs below its base priority, and above it only while
      it holds a mutex. */
  predicate Sound(t: Tcb) {
    && t.priority >= t.base
    && (t.mutexesHeld == 0 ==> t.priority == t.base)
  }

  lemma PrioritiesStaySound(t: Tcb, p: Level)
    requires Sound(t)
    ensures Sound(Hold(t)) && Sound(SetPriority(t, p))
    ensures t.mutexesHeld > 0 ==>
              && Sound(Inherit(t, p).0) && Sound(Disinherit(t).0) && Sound(DisinheritAfterTimeout(t, p))
    ensures t.mutexesHeld > 0 ==> (Disinherit(t).1 <==> Disinherit(t).0.priority < t.priority)
  {
  }

  /** With one mutex held the priority after a timeout depends on base and waiters alone. */
  lemma TimeoutLeavesExactly(t: Tcb, highestWaiting: Level)
    requires t.mutexesHeld == 1
    ensures DisinheritAfterTimeout(t, highestWaiting).priority == MaxPriority(t.base, highestWaiting)
  {
  }

  class TaskControlBlock {
    var priority: Level
    var basePriority: Level
    var mutexesHeld: nat
    var eventValue: nat

    ghost function View(): Tcb
      reads this
    {
      Tcb(priority, basePriority, mutexesHeld, eventValue)
    }

    constructor (p: Level)
      ensures View() == Tcb(p, p, 0, EventValue(p)) && Sound(View())
    {
      priority, basePriority, mutexesHeld, eventValue := p, p, 0, EventValue(p);
    }

    /** Called on the holder (if any) by the running task `current`. */
    static method PriorityInherit(holder: TaskControlBlock?, current: TaskControlBlock) returns (inherited: bool)
      modifies holder
      ensures holder == null ==> !inherited
      ensures holder != null ==> (holder.View(), inherited) == Inherit(old(holder.View()), old(current.priority))
    {
      inherited := false;
      if holder != null {
        var p := current.priority;
        if holder.priority < p {
          if holder.eventValue < IN_USE {
            holder.eventValue := MAX_PRIORITIES - p;
          }
          holder.priority := p;
          inherited := true;
        } else if holder.basePriority < p {
          inherited := true;
        }
      }
    }

    static method PriorityDisinherit(holder: TaskControlBlock?) returns (switch: bool)
      requires holder != null ==> holder.mutexesHeld > 0
      modifies holder
      ensures holder == null ==> !switch
      ensures holder != null ==> (holder.View(), switch) == Disinherit(old(holder.View()))
    {
      switch := false;
      if holder != null {
        holder.mutexesHeld := holder.mutexesHeld - 1;
        if holder.priority != holder.basePriority {
          if holder.mutexesHeld == 0 {
            holder.priority := holder.basePriority;
            holder.eventValue := MAX_PRIORITIES - holder.priority;
            switch := true;
          }
        }
      }
    }

    static method PriorityDisinheritAfterTimeout(holder: TaskControlBlock?, highestWaiting: Level)
      requires holder != null ==> holder.mutexesHeld > 0
      modifies holder
      ensures holder != null ==> holder.View() == DisinheritAfterTimeout(old(holder.View()), highestWaiting)
    {
      if holder != null {
        var use: Level;
        if holder.basePriority < highestWaiting {
          use := highestWaiting;
        } else {
          use := holder.basePriority;
        }
        if holder.priority != use {
          if holder.mutexesHeld == 1 {
            holder.priority := use;
            if holder.eventValue < IN_USE {
              holder.eventValue := MAX_PRIORITIES - use;
            }
          }
        }
      }
    }

    method IncrementMutexHeldCount()
      modifies this
      ensures View() == Hold(old(View()))
    {
      mutexesHeld := mutexesHeld + 1;
    }

    method PrioritySet(p: Level)
      modifies this
      ensures View() == SetPriority(old(View()), p)
    {
      if basePriority != p {
        if basePriority == priority || p > priority {
          priority := p;
        }
        basePriority := p;
        if eventValue < IN_USE {
          eventValue := MAX_PRIORITIES - p;
        }
      }
    }
  }
}
