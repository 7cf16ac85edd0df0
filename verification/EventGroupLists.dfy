/** freertos/event_groups.c on the heap: xEventGroupSetBits walks the linked event list while it
    unlinks the items that match. */
module EventGroupLists {
  import opened Sequences
  import opened IntrusiveList
  import opened EventGroups
  import Rings

  class EventGroup {
    var bits: Bits                   // uxEventBits
    const list: List                 // xTasksWaitingForBits
    var owner: map<ListItem, Task>   // pvOwner of the event list items
    var value: map<Task, Bits>       // their xItemValue

    ghost predicate Valid()
      reads this, list, list.nodes
    {
      && list.Valid() && list.at == 0
      && Owned(owner, value, list.nodes[1..])
    }

    ghost function View(): Group
      reads this, list
      requires list.nodes != [] && Owned(owner, value, list.nodes[1..])
    {
      Group(bits, Owners(owner, list.nodes[1..]), value)
    }

    constructor ()
      ensures Valid() && fresh(list) && fresh(list.end) && View() == Group({}, [], map[])
    {
      bits, owner, value := {}, map[], map[];
      list := new List();
    }

    /** vTaskPlaceOnUnorderedEventList. */
    method PlaceOnUnorderedEventList(item: ListItem, t: Task, itemValue: Bits)
      requires Valid() && View().Valid() && item !in list.nodes && item.container == null && t !in View().waiting
      modifies this`owner, this`value, list, list.nodes`next, list.nodes`previous, item`next, item`previous, item`container
      ensures Valid() && list.nodes == old(list.nodes) + [item]
      ensures View() == old(View()).(waiting := old(View()).waiting + [t], value := old(View()).value[t := itemValue + {IN_USE}])
    {
      hide Owned, Owners;
      ghost var items := list.nodes[1..];
      OwnedMore(owner, value, items, item, t, itemValue + {IN_USE});
      owner, value := owner[item := t], value[t := itemValue + {IN_USE}];
      list.InsertEnd(item);
      assert list.nodes[1..] == items + [item];
    }

    /** vTaskRemoveFromUnorderedEventList, as far as the event list goes. */
    method RemoveFromUnorderedEventList(item: ListItem, itemValue: Bits, ghost kept: seq<ListItem>, ghost rest: seq<ListItem>)
      requires Valid() && list.nodes[1..] == kept + [item] + rest
      modifies this`value, list, list.nodes`next, list.nodes`previous, item`container
      ensures Valid() && list.nodes[1..] == kept + rest
      ensures value == old(value)[owner[item] := itemValue + {IN_USE}]
    {
      hide Owned;
      OwnedLess(owner, value, kept, item, rest, itemValue + {IN_USE});
      PlaceInMiddle(list.nodes[1..], kept, item, rest);
      value := value[owner[item] := itemValue + {IN_USE}];
      var _ := IntrusiveList.Remove(item);
      assert list.nodes[1..] == kept + rest;
    }

    /** The item is looked at, and taken off if it matches. */
    method Visit(item: ListItem, toClear: Bits, ghost kept: seq<ListItem>, ghost rest: seq<ListItem>, ghost n: Group)
      returns (clear: Bits, ghost passed: seq<ListItem>)
      requires Valid() && list.nodes[1..] == kept + [item] + rest
      requires Visiting(owner, bits, [item] + rest, value, kept, toClear, n)
      modifies this`value, list, list.nodes`next, list.nodes`previous, item`container
      ensures Valid() && list.nodes[1..] == passed + rest && (passed == kept || passed == kept + [item])
      ensures Visiting(owner, bits, rest, value, passed, clear, n)
    {
      hide Owned, Visiting;
      VisitStep(owner, bits, item, rest, value, kept, toClear, n);
      var bitsWaitedFor := value[owner[item]];
      var controlBits := bitsWaitedFor * Control();
      bitsWaitedFor := bitsWaitedFor - Control();
      var matchFound := false;
      if WAIT_FOR_ALL !in controlBits {
        if bitsWaitedFor * bits != {} {
          matchFound := true;
        }
      } else if bitsWaitedFor * bits == bitsWaitedFor {
        matchFound := true;
      }
      assert matchFound == Matches(value[owner[item]], bits);
      clear, passed := toClear, kept;
      if matchFound {
        if CLEAR_ON_EXIT in controlBits {
          clear := clear + bitsWaitedFor;
        }
        assert clear == toClear + ClearedBy(value[owner[item]]);
        RemoveFromUnorderedEventList(item, bits + {UNBLOCKED}, kept, rest);
      } else {
        passed := kept + [item];
      }
    }

    /** One round of the loop of xEventGroupSetBits: the next item is read before this one may go. */
    method VisitAndMoveOn(item: ListItem, toClear: Bits, ghost kept: seq<ListItem>, ghost rest: seq<ListItem>, ghost n: Group)
      returns (next: ListItem, clear: Bits, ghost passed: seq<ListItem>)
      requires Valid() && item != list.end && AtItem(item, kept, rest)
      requires Visiting(owner, bits, rest, value, kept, toClear, n)
      modifies this`value, list, list.nodes
      ensures Valid() && AtItem(next, passed, rest[1..])
      ensures Visiting(owner, bits, rest[1..], value, passed, clear, n)
      ensures forall i :: 0 <= i < |list.nodes| ==> list.nodes[i] in old(list.nodes)
    {
      hide Owned, Visiting;
      ghost var nodes := list.nodes;
      assert [item] + rest[1..] == rest && nodes == [list.end] + kept + [item] + rest[1..];
      assert nodes[|kept| + 1] == item;
      next := item.next;
      assert next == if |rest| == 1 then list.end else nodes[|kept| + 2];
      clear, passed := Visit(item, toClear, kept, rest[1..], n);
      assert list.nodes == [list.end] + passed + rest[1..];
    }

    /** The walk has reached `item`: it has passed `kept`, and `rest` is still to come. */
    ghost predicate AtItem(item: ListItem, kept: seq<ListItem>, rest: seq<ListItem>)
      requires list.nodes != []
      reads list
    {
      && list.nodes[1..] == kept + rest
      && if rest == [] then item == list.end else item == rest[0] && item != list.end
    }

    /** xEventGroupSetBits. */
    method SetBits(bitsToSet: Bits) returns (returnBits: Bits)
      requires Valid() && View().Valid()
      modifies this`bits, this`value, list, list.nodes
      ensures Valid() && View() == EventGroups.SetBits(old(View()), bitsToSet)
      ensures returnBits == bits
      ensures forall i :: 0 <= i < |list.nodes| ==> list.nodes[i] in old(list.nodes)
    {
      hide Owned, Visiting;
      ghost var n := EventGroups.SetBits(View(), bitsToSet);
      ghost var nodes := list.nodes;
      ghost var kept: seq<ListItem>, rest := [], list.nodes[1..];
      OwnedKnows(owner, value, rest);
      VisitStarts(owner, rest, View(), bitsToSet);
      bits := bits + bitsToSet;
      var bitsToClear: Bits := {};
      assert list.nodes[0].next == if rest == [] then list.end else list.nodes[1];
      var item: ListItem := list.end.next;
      while item != list.end
        invariant Valid() && AtItem(item, kept, rest) && forall i :: 0 <= i < |list.nodes| ==> list.nodes[i] in nodes
        invariant Visiting(owner, bits, rest, value, kept, bitsToClear, n)
        decreases |rest|
      {
        item, bitsToClear, kept := VisitAndMoveOn(item, bitsToClear, kept, rest, n);
        rest := rest[1..];
      }
      VisitEnds(owner, rest, bits, value, kept, bitsToClear, n);
      bits := bits - bitsToClear;
      returnBits := bits;
    }

    /** xEventGroupClearBits. */
    method ClearBits(bitsToClear: Bits) returns (before: Bits)
      requires Valid()
      modifies this`bits
      ensures Valid() && View() == Less(old(View()), bitsToClear) && before == old(bits)
    {
      before := bits;
      bits := bits - bitsToClear;
    }

    /** xEventGroupWaitBits up to the point where the task may block. */
    method WaitBits(item: ListItem, t: Task, waitFor: Bits, clearOnExit: bool, waitForAll: bool, block: bool, ghost phase: map<Task, Phase>)
      returns (blocked: bool, result: Bits, timedOut: bool)
      requires Valid() && View().Valid() && Joinable(item, t)
      requires Enabled(State(View(), phase), Action.WaitBits(t, waitFor, clearOnExit, waitForAll, block))
      modifies this`bits, this`owner, this`value, list, list.nodes`next, list.nodes`previous
      modifies item`next, item`previous, item`container
      ensures Valid()
      ensures var s, a := State(old(View()), phase), Action.WaitBits(t, waitFor, clearOnExit, waitForAll, block);
              && View() == Apply(s, a).g
              && Returns(s, a) == if blocked then NotYet else Returned(result, timedOut)
    {
      hide Owned;
      var controlBits: Bits := {};
      blocked, timedOut, result := false, false, bits;
      var met := TestWaitCondition(bits, waitFor, waitForAll);
      if met {
        if clearOnExit {
          bits := bits - waitFor;
        }
      } else if !block {
        timedOut := true;
      } else {
        if clearOnExit {
          controlBits := controlBits + {CLEAR_ON_EXIT};
        }
        if waitForAll {
          controlBits := controlBits + {WAIT_FOR_ALL};
        }
        assert waitFor + controlBits + {IN_USE} == Coded(waitFor, clearOnExit, waitForAll);
        PlaceOnUnorderedEventList(item, t, waitFor + controlBits);
        blocked := true;
      }
    }

    /** The event list item of a task that is on no event list. */
    ghost predicate Joinable(item: ListItem, t: Task)
      requires list.nodes != [] && Owned(owner, value, list.nodes[1..])
      reads this, list, item
    {
      item !in list.nodes && item.container == null && t !in View().waiting
    }

    /** xEventGroupSync up to the point where the task may block. */
    method Sync(item: ListItem, t: Task, bitsToSet: Bits, waitFor: Bits, block: bool, ghost phase: map<Task, Phase>)
      returns (blocked: bool, result: Bits, timedOut: bool)
      requires Valid() && View().Valid() && Joinable(item, t)
      requires Enabled(State(View(), phase), Action.Sync(t, bitsToSet, waitFor, block))
      modifies this`bits, this`owner, this`value, list, list.nodes
      modifies item`next, item`previous, item`container
      ensures Valid()
      ensures var s, a := State(old(View()), phase), Action.Sync(t, bitsToSet, waitFor, block);
              && View() == Apply(s, a).g
              && Returns(s, a) == if blocked then NotYet else Returned(result, timedOut)
    {
      hide Owned, EventGroups.SetBits;
      var originalBitValue := bits;
      SetBitsExact(View(), bitsToSet);
      var _ := SetBits(bitsToSet);
      blocked, timedOut := false, false;
      if (originalBitValue + bitsToSet) * waitFor == waitFor {
        result := originalBitValue + bitsToSet;
        bits := bits - waitFor;
      } else if block {
        assert waitFor + {CLEAR_ON_EXIT} + {WAIT_FOR_ALL} + {IN_USE} == Coded(waitFor, true, true);
        PlaceOnUnorderedEventList(item, t, waitFor + {CLEAR_ON_EXIT} + {WAIT_FOR_ALL});
        blocked, result := true, {};
      } else {
        result, timedOut := bits, true;
      }
    }

    /** What both do when the task runs again; the item value is reset. */
    method Finish(t: Task, ghost phase: map<Task, Phase>, waitFor: Bits, clearOnExit: bool, waitForAll: bool)
      returns (result: Bits, timedOut: bool)
      requires Valid() && View().Valid() && Enabled(State(View(), phase), Action.Finish(t))
      requires phase[t] == Inside(waitFor, clearOnExit, waitForAll)
      modifies this`bits, this`value
      ensures Valid()
      ensures var s, a := State(old(View()), phase), Action.Finish(t);
              View() == Apply(s, a).g && Returns(s, a) == Returned(result, timedOut)
    {
      hide Owned;
      OwnedWithout(owner, value, list.nodes[1..], t);
      result, timedOut := value[t], false;
      value := value - {t};
      if UNBLOCKED !in result {
        result := bits;
        var met := TestWaitCondition(result, waitFor, waitForAll);
        if met {
          if clearOnExit {
            bits := bits - waitFor;
          }
        }
        timedOut := true;
      }
      result := result - Control();
    }
  }

  /** prvTestWaitCondition. */
  method TestWaitCondition(currentBits: Bits, waitFor: Bits, waitForAll: bool) returns (met: bool)
    ensures met == Met(currentBits, waitFor, waitForAll)
  {
    met := false;
    if !waitForAll {
      if currentBits * waitFor != {} {
        met := true;
      }
    } else if currentBits * waitFor == waitFor {
      met := true;
    }
  }

  /** A walk with the tasks of `rest` still to come will end in group `n`. */
  ghost predicate Walking(now: Bits, rest: seq<Task>, value: map<Task, Bits>, kept: seq<Task>, clear: Bits, n: Group) {
    && Distinct(rest) && (forall u :: u in rest ==> u in value)
    && n == Group(now - (clear + ToClear(rest, value, now)),
                  kept + StillWaiting(rest, value, now),
                  Delivered(rest, value, now))
  }

  lemma WalkStarts(g: Group, bits: Bits)
    requires g.Valid()
    ensures Walking(g.bits + bits, g.waiting, g.value, [], {}, SetBits(g, bits))
  {
    var now := g.bits + bits;
    assert {} + ToClear(g.waiting, g.value, now) == ToClear(g.waiting, g.value, now);
    assert [] + StillWaiting(g.waiting, g.value, now) == StillWaiting(g.waiting, g.value, now);
  }

  lemma WalkEnds(now: Bits, value: map<Task, Bits>, kept: seq<Task>, clear: Bits, n: Group)
    requires Walking(now, [], value, kept, clear, n)
    ensures n == Group(now - clear, kept, value)
  {
    assert clear + {} == clear;
    assert kept + [] == kept;
    assert Delivered([], value, now) == value;
  }

  /** What the item values of other tasks are does not matter to a walk. */
  lemma {:induction false} OthersDoNotMatter(rest: seq<Task>, value: map<Task, Bits>, now: Bits, t: Task, v: Bits)
    requires t !in rest && t in value && forall u :: u in rest ==> u in value
    ensures StillWaiting(rest, value[t := v], now) == StillWaiting(rest, value, now)
    ensures ToClear(rest, value[t := v], now) == ToClear(rest, value, now)
  {
    if rest != [] { OthersDoNotMatter(rest[1..], value, now, t, v); }
  }

  lemma DeliveredStep(t: Task, rest: seq<Task>, value: map<Task, Bits>, now: Bits)
    requires t !in rest && t in value
    ensures Delivered([t] + rest, value, now)
            == Delivered(rest, if Matches(value[t], now) then value[t := Told(now)] else value, now)
  {
    hide Matches, Told;
  }

  /** The first task of a walk, and what comes of the others. */
  lemma WalkFirst(now: Bits, t: Task, rest: seq<Task>, value: map<Task, Bits>)
    requires forall u :: u in [t] + rest ==> u in value
    ensures t in value && forall u :: u in rest ==> u in value
    ensures ToClear([t] + rest, value, now)
            == (if Matches(value[t], now) then ClearedBy(value[t]) else {}) + ToClear(rest, value, now)
    ensures StillWaiting([t] + rest, value, now)
            == (if Matches(value[t], now) then [] else [t]) + StillWaiting(rest, value, now)
  {
    hide Matches, ClearedBy;
    assert t in [t] + rest && forall u :: u in rest ==> u in [t] + rest;
    assert ([t] + rest)[1..] == rest;
  }

  lemma WalkHit(now: Bits, t: Task, rest: seq<Task>, value: map<Task, Bits>, kept: seq<Task>, clear: Bits)
    requires Distinct([t] + rest) && (forall u :: u in [t] + rest ==> u in value) && t in value && Matches(value[t], now)
    ensures var v := value[t := Told(now)];
            && t !in rest && (forall u :: u in rest ==> u in v)
            && clear + ToClear([t] + rest, value, now) == clear + ClearedBy(value[t]) + ToClear(rest, v, now)
            && kept + StillWaiting([t] + rest, value, now) == kept + StillWaiting(rest, v, now)
  {
    hide Matches, Told, ClearedBy, ToClear, StillWaiting;
    WalkFirst(now, t, rest, value);
    NotInRest(t, rest);
    OthersDoNotMatter(rest, value, now, t, Told(now));
  }

  lemma WalkMiss(now: Bits, t: Task, rest: seq<Task>, value: map<Task, Bits>, kept: seq<Task>, clear: Bits)
    requires Distinct([t] + rest) && (forall u :: u in [t] + rest ==> u in value) && t in value && !Matches(value[t], now)
    ensures t !in rest && (forall u :: u in rest ==> u in value)
    ensures clear + ToClear([t] + rest, value, now) == clear + ToClear(rest, value, now)
    ensures kept + StillWaiting([t] + rest, value, now) == (kept + [t]) + StillWaiting(rest, value, now)
  {
    hide Matches, ClearedBy, ToClear, StillWaiting;
    WalkFirst(now, t, rest, value);
    NotInRest(t, rest);
  }

  lemma NotInRest(t: Task, rest: seq<Task>)
    requires Distinct([t] + rest)
    ensures t !in rest && Distinct(rest)
  {
    var all := [t] + rest;
    assert forall i :: 0 <= i < |rest| ==> rest[i] == all[i + 1];
    assert all[0] == t;
  }

  lemma WalkStep(now: Bits, t: Task, rest: seq<Task>, value: map<Task, Bits>, kept: seq<Task>, clear: Bits, n: Group)
    requires Walking(now, [t] + rest, value, kept, clear, n)
    ensures t in value
    ensures if Matches(value[t], now)
            then Walking(now, rest, value[t := Told(now)], kept, clear + ClearedBy(value[t]), n)
            else Walking(now, rest, value, kept + [t], clear, n)
  {
    hide Matches, Told, ClearedBy, Delivered, Distinct, ToClear, StillWaiting;
    assert t in [t] + rest;
    NotInRest(t, rest);
    DeliveredStep(t, rest, value, now);
    if Matches(value[t], now) {
      WalkHit(now, t, rest, value, kept, clear);
    } else {
      WalkMiss(now, t, rest, value, kept, clear);
    }
  }

  /** The same walk, by the items. */
  ghost predicate Visiting(owner: map<ListItem, Task>, now: Bits, rest: seq<ListItem>, value: map<Task, Bits>,
                           kept: seq<ListItem>, clear: Bits, n: Group)
  {
    && (forall x :: x in kept ==> x in owner) && (forall x :: x in rest ==> x in owner)
    && Walking(now, Owners(owner, rest), value, Owners(owner, kept), clear, n)
  }

  lemma VisitStarts(owner: map<ListItem, Task>, items: seq<ListItem>, g: Group, bits: Bits)
    requires g.Valid() && (forall x :: x in items ==> x in owner) && g.waiting == Owners(owner, items)
    ensures Visiting(owner, g.bits + bits, items, g.value, [], {}, SetBits(g, bits))
  {
    WalkStarts(g, bits);
    assert Owners(owner, []) == [];
  }

  lemma VisitEnds(owner: map<ListItem, Task>, rest: seq<ListItem>, now: Bits, value: map<Task, Bits>, kept: seq<ListItem>,
                  clear: Bits, n: Group)
    requires Visiting(owner, now, rest, value, kept, clear, n) && rest == []
    ensures (forall x :: x in kept ==> x in owner) && n == Group(now - clear, Owners(owner, kept), value)
  {
    assert Owners(owner, rest) == [];
    WalkEnds(now, value, Owners(owner, kept), clear, n);
  }

  lemma VisitStep(owner: map<ListItem, Task>, now: Bits, x: ListItem, rest: seq<ListItem>, value: map<Task, Bits>,
                  kept: seq<ListItem>, clear: Bits, n: Group)
    requires Visiting(owner, now, [x] + rest, value, kept, clear, n)
    ensures x in owner && owner[x] in value
    ensures if Matches(value[owner[x]], now)
            then Visiting(owner, now, rest, value[owner[x] := Told(now)], kept, clear + ClearedBy(value[owner[x]]), n)
            else Visiting(owner, now, rest, value, kept + [x], clear, n)
  {
    hide Walking, Matches, Told, ClearedBy;
    assert x in [x] + rest && forall y :: y in rest ==> y in [x] + rest;
    assert Owners(owner, [x] + rest) == [owner[x]] + Owners(owner, rest);
    OwnersMore(owner, kept, x);
    WalkStep(now, owner[x], Owners(owner, rest), value, Owners(owner, kept), clear, n);
  }

  lemma OwnersMore(owner: map<ListItem, Task>, items: seq<ListItem>, x: ListItem)
    requires x in owner && forall y :: y in items ==> y in owner
    ensures Owners(owner, items + [x]) == Owners(owner, items) + [owner[x]]
  {
  }

  /** Every item on the list belongs to one task, and no two to the same. */
  ghost predicate Owned(owner: map<ListItem, Task>, value: map<Task, Bits>, items: seq<ListItem>) {
    && (forall x :: x in items ==> x in owner && owner[x] in value)
    && (forall i, j :: 0 <= i < j < |items| ==> owner[items[i]] != owner[items[j]])
  }

  lemma OwnedKnows(owner: map<ListItem, Task>, value: map<Task, Bits>, items: seq<ListItem>)
    requires Owned(owner, value, items)
    ensures forall x :: x in items ==> x in owner
  {
  }

  lemma OwnedWithout(owner: map<ListItem, Task>, value: map<Task, Bits>, items: seq<ListItem>, t: Task)
    requires Owned(owner, value, items) && t !in Owners(owner, items)
    ensures Owned(owner, value - {t}, items)
  {
    forall x | x in items ensures owner[x] != t {
      var i :| 0 <= i < |items| && items[i] == x;
      assert Owners(owner, items)[i] == owner[x];
    }
  }

  function Owners(owner: map<ListItem, Task>, items: seq<ListItem>): (r: seq<Task>)
    requires forall x :: x in items ==> x in owner
    ensures |r| == |items|
  {
    seq(|items|, i requires 0 <= i < |items| => owner[items[i]])
  }

  lemma PlaceInMiddle(items: seq<ListItem>, kept: seq<ListItem>, x: ListItem, rest: seq<ListItem>)
    requires items == kept + [x] + rest && Distinct(items)
    ensures x in items && Rings.IndexOf(items, x) == |kept| && Rings.DropAt(items, |kept|) == kept + rest
  {
    assert items[|kept|] == x;
    var i := Rings.IndexOf(items, x);
    assert items[i] == x;
  }

  lemma OwnedMore(owner: map<ListItem, Task>, value: map<Task, Bits>, items: seq<ListItem>, x: ListItem, t: Task, v: Bits)
    requires Owned(owner, value, items) && x !in items && t !in Owners(owner, items)
    ensures Owned(owner[x := t], value[t := v], items + [x])
    ensures Owners(owner[x := t], items + [x]) == Owners(owner, items) + [t]
  {
    forall y | y in items ensures owner[y] != t {
      var i :| 0 <= i < |items| && items[i] == y;
      assert Owners(owner, items)[i] == owner[y];
    }
  }

  lemma OwnedLess(owner: map<ListItem, Task>, value: map<Task, Bits>, kept: seq<ListItem>, x: ListItem, rest: seq<ListItem>, v: Bits)
    requires Owned(owner, value, kept + [x] + rest)
    ensures x in owner && owner[x] in value
    ensures Owned(owner, value[owner[x] := v], kept + rest)
  {
    var all, less := kept + [x] + rest, kept + rest;
    assert all[|kept|] == x;
    assert forall i :: 0 <= i < |less| ==> less[i] == all[if i < |kept| then i else i + 1];
  }
}
