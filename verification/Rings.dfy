/** The circular kernel list as a value: the items from the end marker onwards and where
    pxIndex stands.  IntrusiveList.List keeps its linked nodes equal to such a value; the
    scheduler uses rings directly. */
module Rings {
  import opened Sequences

  /** `index == 0` is the end marker, `index == i + 1` is `items[i]`. */
  datatype Ring<T> = Ring(items: seq<T>, index: nat) {

    ghost predicate Valid() {
      && index <= |items|
      && Distinct(items)
    }

    /** The order in which repeated selection returns the items, starting after pxIndex. */
    function Turns(): seq<T>
      requires index <= |items|
    {
      items[index..] + items[..index]
    }
  }

  function PutAt<T>(s: seq<T>, at: nat, x: T): seq<T>
    requires at <= |s|
  {
    s[..at] + [x] + s[at..]
  }

  function DropAt<T>(s: seq<T>, at: nat): seq<T>
    requires at < |s|
  {
    s[..at] + s[at + 1..]
  }

  function IndexOf<T(==)>(s: seq<T>, x: T): (i: nat)
    requires x in s
    ensures i < |s| && s[i] == x
  {
    if s[0] == x then 0 else
      assert s == [s[0]] + s[1..];
      1 + IndexOf(s[1..], x)
  }

  // The operations of list.c, on values.

  /** vListInsertEnd: immediately before the item pxIndex points to. */
  function InsertEnd<T>(r: Ring<T>, x: T): Ring<T>
    requires r.index <= |r.items|
  {
    InsertAt(r, if r.index == 0 then |r.items| else r.index - 1, x)
  }

  /** A sorted insertion at position `at`; pxIndex keeps pointing to the same item. */
  function InsertAt<T>(r: Ring<T>, at: nat, x: T): Ring<T>
    requires r.index <= |r.items| && at <= |r.items|
  {
    Ring(PutAt(r.items, at, x), if at < r.index then r.index + 1 else r.index)
  }

  /** uxListRemove; when pxIndex pointed to the item it steps back. */
  function RemoveAt<T>(r: Ring<T>, at: nat): Ring<T>
    requires r.index <= |r.items| && at < |r.items|
  {
    Ring(DropAt(r.items, at), if at < r.index then r.index - 1 else r.index)
  }

  function Remove<T(==)>(r: Ring<T>, x: T): Ring<T>
    requires r.index <= |r.items| && x in r.items
  {
    RemoveAt(r, IndexOf(r.items, x))
  }

  /** listGET_OWNER_OF_NEXT_ENTRY: advance pxIndex, skipping the end marker. */
  function Advance<T>(r: Ring<T>): Ring<T>
    requires r.index <= |r.items| && r.items != []
  {
    Ring(r.items, if r.index == |r.items| then 1 else r.index + 1)
  }

  function Selected<T>(r: Ring<T>): T
    requires r.index <= |r.items| && r.items != []
  {
    r.items[Advance(r).index - 1]
  }

  // What the operations mean for the rotation.

  lemma DistinctIndex<T>(s: seq<T>, i: nat)
    requires Distinct(s) && i < |s|
    ensures IndexOf(s, s[i]) == i
  {
  }

  /** How many selections come before the turn of `x`. */
  function TurnOf<T(==)>(r: Ring<T>, x: T): (p: nat)
    requires r.index <= |r.items| && x in r.items
    ensures p < |r.items|
  {
    TurnOfPlace(|r.items|, r.index, IndexOf(r.items, x))
  }

  function TurnOfPlace(n: nat, index: nat, i: nat): (p: nat)
    requires index <= n && i < n
    ensures p < n
  {
    if i < index then i + (n - index) else i - index
  }

  /** The turn of an item is wherever it stands in the rotation. */
  lemma TurnAt<T>(r: Ring<T>, p: nat)
    requires r.Valid() && p < |r.items|
    ensures |r.Turns()| == |r.items|
    ensures r.Turns()[p] in r.items && TurnOf(r, r.Turns()[p]) == p
  {
    var i := if p < |r.items| - r.index then p + r.index else p - (|r.items| - r.index);
    assert r.Turns()[p] == r.items[i];
    DistinctIndex(r.items, i);
  }

  lemma AdvanceTurns<T>(r: Ring<T>)
    requires r.Valid() && r.items != []
    ensures Advance(r).Valid()
    ensures Selected(r) == r.Turns()[0]
    ensures Advance(r).Turns() == r.Turns()[1..] + [r.Turns()[0]]
  {
  }

  /** The new item is selected last, except that the item selected most recently comes after it. */
  lemma InsertEndTurns<T>(r: Ring<T>, x: T)
    requires r.Valid() && x !in r.items
    ensures InsertEnd(r, x).Valid()
    ensures InsertEnd(r, x).Turns() == PutAt(r.Turns(), if r.index == 0 then |r.items| else |r.items| - 1, x)
  {
    var s := InsertEnd(r, x);
    if r.index > 0 {
      var k := r.index;
      assert s.items[k + 1..] == r.items[k..];
      assert s.items[..k + 1] == r.items[..k - 1] + [x] + [r.items[k - 1]];
    }
  }

  /** list.h promises that every other item is returned before the new one; that is so
      exactly when pxIndex stands on the end marker. */
  lemma InsertEndIsLastIff<T>(r: Ring<T>, x: T)
    requires r.Valid() && x !in r.items
    ensures InsertEnd(r, x).index <= |InsertEnd(r, x).items| == |r.items| + 1
    ensures InsertEnd(r, x).Turns()[|r.items|] == x <==> r.index == 0
  {
    InsertEndTurns(r, x);
    if r.index > 0 {
      assert r.Turns()[|r.items| - 1] == r.items[r.index - 1];
    }
  }

  lemma DropDistinct<T>(s: seq<T>, at: nat)
    requires Distinct(s) && at < |s|
    ensures Distinct(DropAt(s, at)) && s[at] !in DropAt(s, at)
  {
  }

  // Runs of a ready list.

  datatype Op<T> = Select | Delete(x: T) | Append(x: T)

  function Apply<T(==)>(r: Ring<T>, op: Op<T>): Ring<T>
    requires r.index <= |r.items|
  {
    match op
    case Select => if r.items == [] then r else Advance(r)
    case Delete(x) => if x in r.items then Remove(r, x) else r
    case Append(x) => if x in r.items then r else InsertEnd(r, x)
  }

  /** The turn of `x` after one step that does not delete it. */
  function TurnAfter<T(==)>(r: Ring<T>, op: Op<T>, x: T): nat
    requires r.index <= |r.items| && x in r.items && op != Delete(x)
  {
    var p := TurnOf(r, x);
    match op
    case Select => if p == 0 then |r.items| - 1 else p - 1
    case Delete(y) => if y in r.items && TurnOf(r, y) < p then p - 1 else p
    case Append(y) => if y !in r.items && r.index > 0 && p == |r.items| - 1 then p + 1 else p
  }

  lemma ApplyValid<T>(r: Ring<T>, op: Op<T>)
    requires r.Valid()
    ensures Apply(r, op).Valid()
  {
    match op
    case Select =>
    case Delete(x) => if x in r.items { DropDistinct(r.items, IndexOf(r.items, x)); }
    case Append(x) => if x !in r.items { InsertEndTurns(r, x); }
  }

  /** A selection moves everyone up by one, a deletion those behind the deleted item
      (also when pxIndex pointed to it), an insertion only the item selected most recently. */
  lemma StepTurn<T>(r: Ring<T>, op: Op<T>, x: T)
    requires r.Valid() && x in r.items && op != Delete(x)
    ensures Apply(r, op).Valid() && x in Apply(r, op).items
    ensures TurnOf(Apply(r, op), x) == TurnAfter(r, op, x)
    ensures op.Select? ==> (Selected(r) == x <==> TurnOf(r, x) == 0)
  {
    ApplyValid(r, op);
    PlaceFound(r, op, x);
    DistinctIndex(Apply(r, op).items, PlaceAfter(r, op, x));
    TurnFromPlace(r, op, x);
    if op.Select? { TurnAt(r, 0); }
  }

  lemma TurnFromPlace<T>(r: Ring<T>, op: Op<T>, x: T)
    requires r.index <= |r.items| && x in r.items && op != Delete(x)
    requires Apply(r, op).index <= |Apply(r, op).items| && x in Apply(r, op).items
    requires IndexOf(Apply(r, op).items, x) == PlaceAfter(r, op, x)
    ensures TurnOf(Apply(r, op), x) == TurnAfter(r, op, x)
  {
    if op.Delete? && op.x in r.items {
      var i, d := IndexOf(r.items, x), IndexOf(r.items, op.x);
      assert d != i;
      TurnOrder(|r.items|, r.index, d, i);
    }
  }

  lemma TurnOrder(n: nat, index: nat, d: nat, i: nat)
    requires index <= n && i < n && d < n && i != d
    ensures var p := TurnOfPlace(n, index, i);
            TurnOfPlace(n - 1, if d < index then index - 1 else index, if d < i then i - 1 else i)
            == if TurnOfPlace(n, index, d) < p then p - 1 else p
  {
  }

  function PlaceAfter<T(==)>(r: Ring<T>, op: Op<T>, x: T): nat
    requires r.index <= |r.items| && x in r.items && op != Delete(x)
  {
    var i := IndexOf(r.items, x);
    match op
    case Select => i
    case Delete(y) => if y in r.items && IndexOf(r.items, y) < i then i - 1 else i
    case Append(y) => if y !in r.items && 0 < r.index <= i + 1 then i + 1 else i
  }

  lemma PlaceFound<T>(r: Ring<T>, op: Op<T>, x: T)
    requires r.index <= |r.items| && x in r.items && op != Delete(x)
    ensures var s, j := Apply(r, op), PlaceAfter(r, op, x); j < |s.items| && s.items[j] == x
  {
    var i := IndexOf(r.items, x);
    if op.Delete? && op.x in r.items { assert IndexOf(r.items, op.x) != i; }
  }

  /** The items a run selects, in order. */
  ghost function Run<T>(r: Ring<T>, ops: seq<Op<T>>): seq<T>
    requires r.Valid()
    decreases |ops|
  {
    if ops == [] then [] else
      ApplyValid(r, ops[0]);
      (if ops[0].Select? && r.items != [] then [Selected(r)] else []) + Run(Apply(r, ops[0]), ops[1..])
  }

  function Count<T>(ops: seq<Op<T>>, selects: bool): nat {
    if ops == [] then 0 else
      (if (if selects then ops[0].Select? else ops[0].Append?) then 1 else 0) + Count(ops[1..], selects)
  }

  ghost predicate Keeps<T>(ops: seq<Op<T>>, x: T) {
    forall i :: 0 <= i < |ops| ==> ops[i] != Delete(x)
  }

  /** Every selection of `x` comes after one of `y`. */
  ghost predicate AlwaysAfter<T>(selected: seq<T>, y: T, x: T) {
    forall j :: 0 <= j < |selected| && selected[j] == x ==> y in selected[..j]
  }

  lemma AlwaysAfterCons<T>(h: T, tail: seq<T>, y: T, x: T)
    requires h == y || AlwaysAfter(tail, y, x)
    requires h != x
    ensures AlwaysAfter([h] + tail, y, x)
  {
    var s := [h] + tail;
    forall j | 0 <= j < |s| && s[j] == x ensures y in s[..j] {
      assert s[..j] == [h] + tail[..j - 1];
    }
  }

  lemma StepOrder<T>(r: Ring<T>, op: Op<T>, y: T, x: T)
    requires r.Valid() && x in r.items && y in r.items && TurnOf(r, y) < TurnOf(r, x)
    requires op != Delete(x) && op != Delete(y)
    ensures Apply(r, op).Valid() && x in Apply(r, op).items && y in Apply(r, op).items
    ensures op.Select? ==> Selected(r) != x
    ensures (op.Select? && Selected(r) == y) || TurnOf(Apply(r, op), y) < TurnOf(Apply(r, op), x)
  {
    StepTurn(r, op, x);
    StepTurn(r, op, y);
  }

  /** No overtaking: whatever is deleted or appended meanwhile, including the item pxIndex
      points to, `y` is selected before `x` when its turn is before. */
  lemma {:induction false} NoOvertaking<T>(r: Ring<T>, ops: seq<Op<T>>, y: T, x: T)
    requires r.Valid() && x in r.items && y in r.items && TurnOf(r, y) < TurnOf(r, x)
    requires Keeps(ops, x) && Keeps(ops, y)
    ensures AlwaysAfter(Run(r, ops), y, x)
    decreases |ops|
  {
    if ops != [] {
      var op, rest := ops[0], ops[1..];
      StepOrder(r, op, y, x);
      var later := Run(Apply(r, op), rest);
      if op.Select? {
        if Selected(r) != y { NoOvertaking(Apply(r, op), rest, y, x); }
        AlwaysAfterCons(Selected(r), later, y, x);
      } else {
        NoOvertaking(Apply(r, op), rest, y, x);
        assert Run(r, ops) == later;
      }
    }
  }

  /** Between two selections of an item every other item that stays on the list has its turn. */
  lemma RoundRobin<T>(r: Ring<T>, ops: seq<Op<T>>, y: T)
    requires r.Valid() && y in r.items && y != Selected(r)
    requires Keeps(ops, Selected(r)) && Keeps(ops, y)
    ensures Advance(r).Valid()
    ensures AlwaysAfter(Run(Advance(r), ops), y, Selected(r))
  {
    AdvanceTurns(r);
    TurnAt(r, 0);
    StepTurn(r, Select, Selected(r));
    StepTurn(r, Select, y);
    NoOvertaking(Advance(r), ops, y, Selected(r));
  }

  /** Bounded waiting: an item is selected within as many selections as there are items,
      plus one for every item appended meanwhile. */
  lemma {:induction false} SelectedWithin<T>(r: Ring<T>, ops: seq<Op<T>>, x: T)
    requires r.Valid() && x in r.items && Keeps(ops, x)
    requires Count(ops, true) > TurnOf(r, x) + Count(ops, false)
    ensures x in Run(r, ops)
    decreases |ops|
  {
    var op, rest := ops[0], ops[1..];
    StepTurn(r, op, x);
    if op.Select? && Selected(r) == x {
      assert Run(r, ops)[0] == x;
    } else {
      SelectedWithin(Apply(r, op), rest, x);
    }
  }

  // Sorted insertion.

  /** The first position whose value is above `v`: where the loop of vListInsert stops. */
  function FirstAbove(values: seq<nat>, v: nat): (at: nat)
    ensures at <= |values|
    ensures forall i :: 0 <= i < at ==> values[i] <= v
    ensures at < |values| ==> values[at] > v
  {
    if values == [] || values[0] > v then 0 else 1 + FirstAbove(values[1..], v)
  }

  ghost predicate Ascending(values: seq<nat>) {
    forall i, j :: 0 <= i < j < |values| ==> values[i] <= values[j]
  }

  /** In an ascending list the new value lands after every equal or smaller one and the list stays ascending. */
  lemma SortedInsertion(values: seq<nat>, v: nat)
    requires Ascending(values)
    ensures var at := FirstAbove(values, v);
            && Ascending(PutAt(values, at, v))
            && (forall i :: 0 <= i < |values| ==> (values[i] <= v <==> i < at))
  {
  }

  /** Removing what was just inserted restores the list and pxIndex. */
  lemma RemoveUndoesInsert<T>(r: Ring<T>, at: nat, x: T)
    requires r.Valid() && x !in r.items && at <= |r.items|
    ensures InsertAt(r, at, x).Valid() && x in InsertAt(r, at, x).items
    ensures Remove(InsertAt(r, at, x), x) == r
  {
    var s := InsertAt(r, at, x);
    assert s.items[at] == x;
    DistinctIndex(s.items, at);
    assert DropAt(s.items, at) == r.items;
  }
}
