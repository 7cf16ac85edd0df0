/** freertos/list.c on the heap: doubly linked rings through a sentinel, with a rotating
    pxIndex.  Every method moves the list from one Ring value to the next. */
module IntrusiveList {
  import opened Sequences
  import opened Rings
  import opened Ticks

  class ListItem {
    var value: Tick
    var next: ListItem?
    var previous: ListItem?
    var container: List?

    /** vListInitialiseItem, plus the value its user stores first. */
    constructor (value: Tick)
      ensures container == null && this.value == value
    {
      this.value := value;
      next, previous, container := null, null, null;
    }
  }

  class List {
    var count: nat
    var index: ListItem
    const end: ListItem
    ghost var nodes: seq<ListItem>  // the sentinel, then the items
    ghost var at: nat               // pxIndex is nodes[at]

    ghost predicate Valid()
      reads this, nodes
    {
      && nodes != [] && nodes[0] == end && end.value == MAX_DELAY
      && count == |nodes| - 1
      && at < |nodes| && index == nodes[at]
      && Distinct(nodes)
      && Linked(nodes)
      && (forall i :: 1 <= i < |nodes| ==> nodes[i].container == this)
    }

    ghost function View(): Ring<ListItem>
      requires nodes != []
      reads this
    {
      Ring(nodes[1..], at)
    }

    /** vListInitialise. */
    constructor ()
      ensures Valid() && fresh(end) && nodes == [end] && View() == Ring([], 0)
    {
      var sentinel := new ListItem(MAX_DELAY);
      end, index, count := sentinel, sentinel, 0;
      nodes, at := [sentinel], 0;
      new;
      sentinel.next, sentinel.previous := sentinel, sentinel;
    }

    /** The new item counts as the node at `p` from now on. */
    ghost method Enlist(item: ListItem, p: nat)
      requires 1 <= p <= |nodes| && Spliced(nodes, p, item) && Distinct(nodes) && item !in nodes
      requires nodes[0] == end && end.value == MAX_DELAY && count == |nodes|
      requires at < |nodes| && index == nodes[at] && item.container == this
      requires forall i :: 1 <= i < |nodes| ==> nodes[i].container == this
      modifies this`nodes, this`at
      ensures Valid() && View() == Rings.InsertAt(old(View()), p - 1, item)
    {
      SplicedLinks(nodes, p, item);
      PutDistinct(nodes, p, item);
      nodes, at := PutAt(nodes, p, item), if p <= at then at + 1 else at;
    }

    /** The bypassed node at `p` does not count any more. */
    ghost method Delist(item: ListItem, p: nat)
      requires 1 <= p < |nodes| && nodes[p] == item && Bypassed(nodes, p) && Distinct(nodes)
      requires nodes[0] == end && end.value == MAX_DELAY && count == |nodes| - 2
      requires at < |nodes| && index == nodes[if at == p then p - 1 else at]
      requires forall i :: 1 <= i < |nodes| && i != p ==> nodes[i].container == this
      modifies this`nodes, this`at
      ensures Valid() && View() == Rings.RemoveAt(old(View()), p - 1)
    {
      BypassedLinks(nodes, p);
      DropTail(nodes, p);
      nodes, at := DropAt(nodes, p), if p <= at then at - 1 else at;
    }

    /** The pointer surgery of uxListRemove. */
    method Unlink(item: ListItem, ghost p: nat)
      requires Valid() && 1 <= p < |nodes| && nodes[p] == item
      modifies this, nodes`next, nodes`previous, item`container
      ensures Valid() && View() == RemoveAt(old(View()), p - 1) && item.container == null
    {
      ghost var q := if p + 1 == |nodes| then 0 else p + 1;
      assert item.previous == nodes[p - 1] && item.next == nodes[q];
      Unhook(nodes, item.previous, item.next, p);
      if index == item {
        index := item.previous;
      }
      item.container := null;
      count := count - 1;
      Delist(item, p);
    }

    /** What vListInsertEnd and vListInsert have in common: the item becomes the node at `p`. */
    method Splice(item: ListItem, before: ListItem, after: ListItem, ghost p: nat)
      requires Valid() && item !in nodes
      requires 1 <= p <= |nodes| && before == nodes[p - 1] && after == nodes[if p == |nodes| then 0 else p]
      modifies this, before`next, after`previous, item`next, item`previous, item`container
      ensures Valid() && View() == Rings.InsertAt(old(View()), p - 1, item)
    {
      Hook(nodes, item, before, after, p);
      item.container := this;
      count := count + 1;
      Enlist(item, p);
    }

    /** vListInsertEnd. */
    method InsertEnd(item: ListItem)
      requires Valid() && item !in nodes && item.container == null
      modifies this, nodes`next, nodes`previous, item`next, item`previous, item`container
      ensures Valid() && View() == Rings.InsertEnd(old(View()), item)
    {
      ghost var p := if at == 0 then |nodes| else at;
      assert index == nodes[at] && index.previous == nodes[p - 1];
      Splice(item, index.previous, index, p);
    }

    /** The search of vListInsert: the node the new item goes behind. */
    method Search(v: Tick) returns (cursor: ListItem, ghost p: nat)
      requires Valid()
      ensures p < |nodes| && cursor == nodes[p]
      ensures p == Spot(nodes, v, 0)
    {
      if v == MAX_DELAY {
        cursor, p := end.previous, |nodes| - 1;
        SpotOfMax(nodes, 0);
      } else {
        cursor, p := end, 0;
        while cursor.next.value <= v
          invariant p < |nodes| && cursor == nodes[p]
          invariant Spot(nodes, v, p) == Spot(nodes, v, 0)
          decreases |nodes| - p
        {
          cursor, p := cursor.next, p + 1;
        }
      }
    }

    /** vListInsert. */
    method Insert(item: ListItem)
      requires Valid() && item !in nodes && item.container == null
      modifies this, nodes`next, nodes`previous, item`next, item`previous, item`container
      ensures Valid()
      ensures View() == Rings.InsertAt(old(View()), old(Spot(nodes, item.value, 0)), item)
    {
      var cursor;
      ghost var p;
      cursor, p := Search(item.value);
      assert cursor == nodes[p] && cursor.next == nodes[if p + 1 == |nodes| then 0 else p + 1];
      Splice(item, cursor, cursor.next, p + 1);
    }

    /** listGET_OWNER_OF_NEXT_ENTRY. */
    method Next() returns (item: ListItem)
      requires Valid() && count > 0
      modifies this`index, this`at
      ensures Valid() && View() == Advance(old(View())) && item == Selected(old(View()))
    {
      index, at := index.next, if at + 1 == |nodes| then 0 else at + 1;
      if index == end {
        index, at := end.next, 1;
      }
      item := index;
    }
  }

  /** uxListRemove: the item knows its list. */
  method Remove(item: ListItem) returns (remaining: nat)
    requires item.container != null && item.container.Valid() && item in item.container.nodes[1..]
    modifies item.container, item.container.nodes`next, item.container.nodes`previous, item`container
    ensures item.container == null
    ensures var list := old(item.container);
            && list.Valid() && list.View() == Rings.Remove(old(list.View()), item)
            && remaining == |list.View().items|
  {
    var list := item.container;
    list.Unlink(item, IndexOf(list.nodes[1..], item) + 1);
    remaining := list.count;
  }

  /** The four pointer writes of an insertion. */
  method Hook(ghost nodes: seq<ListItem>, item: ListItem, before: ListItem, after: ListItem, ghost p: nat)
    requires nodes != [] && Linked(nodes) && Distinct(nodes) && item !in nodes
    requires 1 <= p <= |nodes| && before == nodes[p - 1] && after == nodes[if p == |nodes| then 0 else p]
    modifies before`next, after`previous, item`next, item`previous
    ensures Spliced(nodes, p, item)
  {
    item.next := after;
    item.previous := before;
    before.next := item;
    after.previous := item;
    assert forall i {:trigger nodes[i].next} :: 0 <= i < |nodes| - 1 && i != p - 1 ==> nodes[i].next == nodes[i + 1];
    assert forall i {:trigger nodes[i].previous} :: 0 < i < |nodes| && i != p ==> nodes[i].previous == nodes[i - 1];
  }

  /** The two pointer writes of a removal. */
  method Unhook(ghost nodes: seq<ListItem>, before: ListItem, after: ListItem, ghost p: nat)
    requires nodes != [] && Linked(nodes) && Distinct(nodes)
    requires 1 <= p < |nodes| && before == nodes[p - 1] && after == nodes[if p + 1 == |nodes| then 0 else p + 1]
    modifies before`next, after`previous
    ensures Bypassed(nodes, p)
  {
    after.previous := before;
    before.next := after;
    assert forall i {:trigger nodes[i].next} :: 0 <= i < |nodes| - 1 && i != p - 1 ==> nodes[i].next == nodes[i + 1];
  }

  lemma PutDistinct<T>(s: seq<T>, p: nat, x: T)
    requires 1 <= p <= |s| && Distinct(s) && x !in s
    ensures PutAt(s, p, x)[1..] == PutAt(s[1..], p - 1, x)
    ensures Distinct(PutAt(s, p, x))
  {
  }

  lemma DropTail<T>(s: seq<T>, p: nat)
    requires 1 <= p < |s| && Distinct(s)
    ensures DropAt(s, p)[1..] == DropAt(s[1..], p - 1)
    ensures Distinct(DropAt(s, p))
  {
  }

  /** The node, from `p` on, that an item with value `v` is inserted behind. */
  ghost function Spot(nodes: seq<ListItem>, v: Tick, p: nat): (q: nat)
    requires p < |nodes|
    reads nodes
    ensures p <= q < |nodes|
    decreases |nodes| - p
  {
    if p + 1 < |nodes| && nodes[p + 1].value <= v then Spot(nodes, v, p + 1) else p
  }

  lemma {:induction false} SpotOfMax(nodes: seq<ListItem>, p: nat)
    requires p < |nodes|
    ensures Spot(nodes, MAX_DELAY, p) == |nodes| - 1
    decreases |nodes| - p
  {
    if p + 1 < |nodes| { SpotOfMax(nodes, p + 1); }
  }

  /** vListInsert puts an item before the first one with a greater value, whatever the order of the list. */
  lemma {:induction false} SpotIsFirstAbove(nodes: seq<ListItem>, v: Tick, p: nat)
    requires p < |nodes|
    ensures Spot(nodes, v, p) == p + FirstAbove(ValuesOf(nodes[p + 1..]), v)
    decreases |nodes| - p
  {
    if p + 1 < |nodes| {
      var values := ValuesOf(nodes[p + 1..]);
      assert values[1..] == ValuesOf(nodes[p + 2..]);
      SpotIsFirstAbove(nodes, v, p + 1);
    }
  }

  ghost function ValuesOf(items: seq<ListItem>): seq<nat>
    reads items
  {
    seq(|items|, i requires 0 <= i < |items| reads items => items[i].value)
  }

  /** Consecutive nodes point to each other, and the last one and the first close the ring. */
  ghost predicate Linked(nodes: seq<ListItem>)
    requires nodes != []
    reads nodes
  {
    && (forall i {:trigger nodes[i].next} :: 0 <= i < |nodes| - 1 ==> nodes[i].next == nodes[i + 1])
    && (forall i {:trigger nodes[i].previous} :: 0 < i < |nodes| ==> nodes[i].previous == nodes[i - 1])
    && nodes[|nodes| - 1].next == nodes[0] && nodes[0].previous == nodes[|nodes| - 1]
  }

  /** As Linked, except that `x` has been put between nodes p - 1 and p. */
  ghost predicate Spliced(nodes: seq<ListItem>, p: nat, x: ListItem)
    requires 1 <= p <= |nodes|
    reads nodes, x
  {
    && (forall i {:trigger nodes[i].next} :: 0 <= i < |nodes| - 1 && i != p - 1 ==> nodes[i].next == nodes[i + 1])
    && (forall i {:trigger nodes[i].previous} :: 0 < i < |nodes| && i != p ==> nodes[i].previous == nodes[i - 1])
    && nodes[p - 1].next == x && x.previous == nodes[p - 1]
    && (if p == |nodes| then x.next == nodes[0] && nodes[0].previous == x else
        && x.next == nodes[p] && nodes[p].previous == x
        && nodes[|nodes| - 1].next == nodes[0] && nodes[0].previous == nodes[|nodes| - 1])
  }

  lemma SplicedLinks(nodes: seq<ListItem>, p: nat, x: ListItem)
    requires 1 <= p <= |nodes| && Spliced(nodes, p, x)
    ensures Linked(PutAt(nodes, p, x))
  {
    var s := PutAt(nodes, p, x);
    assert forall i :: 0 <= i < |s| ==> s[i] == if i < p then nodes[i] else if i == p then x else nodes[i - 1];
  }

  /** As Linked, except that node p has been bypassed. */
  ghost predicate Bypassed(nodes: seq<ListItem>, p: nat)
    requires 1 <= p < |nodes|
    reads nodes
  {
    && (forall i {:trigger nodes[i].next} :: 0 <= i < |nodes| - 1 && i != p - 1 && i != p ==> nodes[i].next == nodes[i + 1])
    && (forall i {:trigger nodes[i].previous} :: 0 < i < |nodes| && i != p && i != p + 1 ==> nodes[i].previous == nodes[i - 1])
    && (if p + 1 == |nodes| then nodes[p - 1].next == nodes[0] && nodes[0].previous == nodes[p - 1] else
        && nodes[p - 1].next == nodes[p + 1] && nodes[p + 1].previous == nodes[p - 1]
        && nodes[|nodes| - 1].next == nodes[0] && nodes[0].previous == nodes[|nodes| - 1])
  }

  lemma BypassedLinks(nodes: seq<ListItem>, p: nat)
    requires 1 <= p < |nodes| && Bypassed(nodes, p)
    ensures Linked(DropAt(nodes, p))
  {
    var s := DropAt(nodes, p);
    assert forall i :: 0 <= i < |s| ==> s[i] == if i < p then nodes[i] else nodes[i + 1];
  }
}
