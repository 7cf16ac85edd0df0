/** Where the tasks are: the lists of freertos/tasks.c that hold state list items, the ready
    priorities bitmap, and what every move between lists keeps. */
module TaskLists {
  import opened Sequences
  import opened Priorities
  import opened ReadyBitmap
  import opened Rings

  type Id = nat

  /** The two delayed lists keep their identity; a pointer says which is the current one. */
  datatype ListId = Ready(p: Level) | DelayedOne | DelayedTwo | Suspended | Termination

  /** The lists, the container of every state list item, the TCBs, uxTopReadyPriority and
      uxCurrentNumberOfTasks. */
  datatype Board = Board(
    lists: map<ListId, Ring<Id>>,
    at: map<Id, ListId>,
    tcbs: map<Id, Tcb>,
    top: Word,
    tasks: int)

  // The invariant.

  predicate Full(lists: map<ListId, Ring<Id>>) {
    && (forall p: Level :: Ready(p) in lists)
    && DelayedOne in lists && DelayedTwo in lists && Suspended in lists && Termination in lists
  }

  /** Every state list item is on exactly the list that is its container. */
  ghost predicate Partition(lists: map<ListId, Ring<Id>>, at: map<Id, ListId>) {
    && Full(lists)
    && (forall l :: l in lists ==> lists[l].Valid())
    && (forall l, u :: l in lists && u in lists[l].items ==> u in at && at[u] == l)
    && (forall u :: u in at ==> at[u] in lists && u in lists[at[u]].items)
  }

  /** The live tasks are those with a container, and a ready task is on the list of its priority. */
  ghost predicate OwnLists(at: map<Id, ListId>, tcbs: map<Id, Tcb>) {
    && at.Keys == tcbs.Keys
    && (forall u :: u in at && at[u].Ready? ==> u in tcbs && at[u].p == tcbs[u].priority)
  }

  /** Bit p is set iff ready list p is not empty. */
  ghost predicate Bitmap(lists: map<ListId, Ring<Id>>, top: Word)
    requires Full(lists)
  {
    && (forall p: Level :: top[p] <==> lists[Ready(p)].items != [])
    && (forall i :: MAX_PRIORITIES <= i < 32 ==> !top[i])
  }

  function Len(lists: map<ListId, Ring<Id>>, l: ListId): nat
    requires l in lists
  {
    |lists[l].items|
  }

  function Total(lists: map<ListId, Ring<Id>>): nat
    requires Full(lists)
  {
    Len(lists, Ready(0)) + Len(lists, Ready(1)) + Len(lists, Ready(2)) + Len(lists, Ready(3)) + Len(lists, Ready(4))
    + Len(lists, DelayedOne) + Len(lists, DelayedTwo) + Len(lists, Suspended) + Len(lists, Termination)
  }

  ghost predicate Tidy(b: Board) {
    Partition(b.lists, b.at) && OwnLists(b.at, b.tcbs) && Bitmap(b.lists, b.top) && Total(b.lists) == b.tasks
  }

  lemma TidyFull(b: Board)
    requires Tidy(b)
    ensures Full(b.lists)
  {
  }

  // Lists.

  lemma TotalUpdate(lists: map<ListId, Ring<Id>>, l: ListId, r: Ring<Id>)
    requires Full(lists) && l in lists
    ensures Full(lists[l := r]) && Total(lists[l := r]) == Total(lists) - Len(lists, l) + |r.items|
  {
    if l.Ready? { assert l.p == 0 || l.p == 1 || l.p == 2 || l.p == 3 || l.p == 4; }
  }

  lemma RemoveItems(r: Ring<Id>, u: Id)
    requires r.Valid() && u in r.items
    ensures Remove(r, u).Valid() && |Remove(r, u).items| == |r.items| - 1
    ensures forall v :: v in Remove(r, u).items <==> v in r.items && v != u
  {
    var i := IndexOf(r.items, u);
    DropDistinct(r.items, i);
    var d := DropAt(r.items, i);
    forall v | v in r.items && v != u ensures v in d {
      var j := IndexOf(r.items, v);
      assert d[if j < i then j else j - 1] == v;
    }
  }

  lemma InsertItems(r: Ring<Id>, i: nat, u: Id)
    requires r.Valid() && u !in r.items && i <= |r.items|
    ensures InsertAt(r, i, u).Valid() && |InsertAt(r, i, u).items| == |r.items| + 1
    ensures forall v :: v in InsertAt(r, i, u).items <==> v in r.items || v == u
  {
    var s := PutAt(r.items, i, u);
    assert s[i] == u;
    forall v | v in r.items ensures v in s {
      var j := IndexOf(r.items, v);
      assert s[if j < i then j else j + 1] == v;
    }
  }

  // Moving a task between lists.

  /** uxListRemove of a state list item; the bit of a ready list that becomes empty is reset. */
  function Unlink(b: Board, u: Id): Board
    requires Full(b.lists) && u in b.at && b.at[u] in b.lists
    requires b.lists[b.at[u]].index <= |b.lists[b.at[u]].items| && u in b.lists[b.at[u]].items
  {
    var l := b.at[u];
    var r := Remove(b.lists[l], u);
    b.(lists := b.lists[l := r], at := b.at - {u}, top := if l.Ready? && r.items == [] then Reset(b.top, l.p) else b.top)
  }

  /** Insert a state list item; the bit of a ready list is set. */
  function Link(b: Board, l: ListId, i: nat, u: Id): Board
    requires l in b.lists && b.lists[l].index <= |b.lists[l].items| && i <= |b.lists[l].items|
  {
    b.(lists := b.lists[l := InsertAt(b.lists[l], i, u)], at := b.at[u := l],
       top := if l.Ready? then Record(b.top, l.p) else b.top)
  }

  lemma UnlinkKeeps(b: Board, u: Id)
    requires Partition(b.lists, b.at) && u in b.at
    ensures var n := Unlink(b, u);
            && Partition(n.lists, n.at) && Total(n.lists) == Total(b.lists) - 1 && n.lists.Keys == b.lists.Keys
            && (Bitmap(b.lists, b.top) ==> Bitmap(n.lists, n.top))
  {
    var l := b.at[u];
    var r := Remove(b.lists[l], u);
    RemoveItems(b.lists[l], u);
    TotalUpdate(b.lists, l, r);
    PartitionLess(b.lists, b.at, u, r);
    hide Partition, Total;
    if l.Ready? && Bitmap(b.lists, b.top) { BitmapUpdate(b.lists, b.top, l, r); }
    if !l.Ready? && Bitmap(b.lists, b.top) { BitmapFrame(b.lists, b.top, l, r); }
  }

  lemma PartitionLess(lists: map<ListId, Ring<Id>>, at: map<Id, ListId>, u: Id, r: Ring<Id>)
    requires Partition(lists, at) && u in at && r.Valid()
    requires forall v :: v in r.items <==> v in lists[at[u]].items && v != u
    ensures Partition(lists[at[u] := r], at - {u})
  {
  }

  lemma PartitionMore(lists: map<ListId, Ring<Id>>, at: map<Id, ListId>, l: ListId, u: Id, r: Ring<Id>)
    requires Partition(lists, at) && u !in at && l in lists && r.Valid()
    requires forall v :: v in r.items <==> v in lists[l].items || v == u
    ensures Partition(lists[l := r], at[u := l])
  {
  }

  /** The bit of a ready list follows whether it is empty. */
  lemma BitmapUpdate(lists: map<ListId, Ring<Id>>, top: Word, l: ListId, r: Ring<Id>)
    requires Full(lists) && Bitmap(lists, top) && l.Ready?
    ensures Full(lists[l := r])
    ensures Bitmap(lists[l := r], top[l.p := r.items != []])
    ensures (r.items != []) == top[l.p] ==> Bitmap(lists[l := r], top)
  {
    if (r.items != []) == top[l.p] { assert top[l.p := r.items != []] == top; }
  }

  lemma BitmapFrame(lists: map<ListId, Ring<Id>>, top: Word, l: ListId, r: Ring<Id>)
    requires Full(lists) && Bitmap(lists, top) && !l.Ready?
    ensures Full(lists[l := r]) && Bitmap(lists[l := r], top)
  {
  }

  lemma LinkKeeps(b: Board, l: ListId, i: nat, u: Id)
    requires Partition(b.lists, b.at) && u !in b.at && l in b.lists && i <= |b.lists[l].items|
    ensures var n := Link(b, l, i, u);
            && Partition(n.lists, n.at) && Total(n.lists) == Total(b.lists) + 1 && n.lists.Keys == b.lists.Keys
            && (Bitmap(b.lists, b.top) ==> Bitmap(n.lists, n.top))
  {
    var r := InsertAt(b.lists[l], i, u);
    NotListed(b, u, l);
    InsertItems(b.lists[l], i, u);
    TotalUpdate(b.lists, l, r);
    PartitionMore(b.lists, b.at, l, u, r);
    hide Partition, Total;
    if l.Ready? && Bitmap(b.lists, b.top) { BitmapUpdate(b.lists, b.top, l, r); }
    if !l.Ready? && Bitmap(b.lists, b.top) { BitmapFrame(b.lists, b.top, l, r); }
  }

  lemma PlaceOf(lists: map<ListId, Ring<Id>>, at: map<Id, ListId>, u: Id)
    requires Partition(lists, at) && u in at
    ensures Full(lists) && at[u] in lists && lists[at[u]].index <= |lists[at[u]].items| && u in lists[at[u]].items
  {
  }

  lemma TcbOf(at: map<Id, ListId>, tcbs: map<Id, Tcb>, u: Id)
    requires OwnLists(at, tcbs) && u in at
    ensures u in tcbs
  {
  }

  lemma Fits(lists: map<ListId, Ring<Id>>, at: map<Id, ListId>, l: ListId)
    requires Partition(lists, at) && l in lists
    ensures lists[l].index <= |lists[l].items|
  {
  }

  lemma NotListed(b: Board, u: Id, l: ListId)
    requires Partition(b.lists, b.at) && u !in b.at && l in b.lists
    ensures u !in b.lists[l].items
  {
  }

  lemma RelinkedAt(at: map<Id, ListId>, u: Id, l: ListId)
    ensures (at - {u})[u := l] == at[u := l]
  {
  }

  lemma OwnListsUpdate(at: map<Id, ListId>, tcbs: map<Id, Tcb>, u: Id, l: ListId, t: Tcb)
    requires OwnLists(at, tcbs) && (l.Ready? ==> l.p == t.priority)
    ensures OwnLists(at[u := l], tcbs[u := t])
    ensures OwnLists(at - {u}, tcbs - {u})
  {
    assert at[u := l].Keys == at.Keys + {u};
    assert tcbs[u := t].Keys == tcbs.Keys + {u};
  }

  /** Where vListInsertEnd puts an item: before the one pxIndex points to. */
  function End(r: Ring<Id>): nat {
    if r.index == 0 then |r.items| else r.index - 1
  }

  /** Unlink a task and link it into list `l` at position `i`. */
  function Moved(b: Board, u: Id, l: ListId, i: nat): Board
    requires Full(b.lists) && u in b.at && b.at[u] in b.lists
    requires b.lists[b.at[u]].index <= |b.lists[b.at[u]].items| && u in b.lists[b.at[u]].items
    requires var n := Unlink(b, u); l in n.lists && n.lists[l].index <= |n.lists[l].items| && i <= |n.lists[l].items|
  {
    Link(Unlink(b, u), l, i, u)
  }

  /** Moving a task anywhere but onto a ready list of another priority keeps everything. */
  lemma MovedKeeps(b: Board, u: Id, l: ListId, i: nat)
    requires Tidy(b) && u in b.at && l in b.lists && i <= |Unlink(b, u).lists[l].items|
    requires l.Ready? ==> l.p == b.tcbs[u].priority
    ensures var n := Unlink(b, u); l in n.lists && n.lists[l].index <= |n.lists[l].items|
    ensures Tidy(Moved(b, u, l, i))
    ensures Moved(b, u, l, i).at == b.at[u := l] && Moved(b, u, l, i).tcbs == b.tcbs
  {
    hide Partition, Bitmap, OwnLists, Total;
    PlaceOf(b.lists, b.at, u);
    TcbOf(b.at, b.tcbs, u);
    var n := Unlink(b, u);
    UnlinkKeeps(b, u);
    Fits(n.lists, n.at, l);
    OwnListsUpdate(b.at, b.tcbs, u, l, b.tcbs[u]);
    assert b.tcbs[u := b.tcbs[u]] == b.tcbs;
    RelinkedAt(b.at, u, l);
    LinkKeeps(n, l, i, u);
  }

  /** prvAddTaskToReadyList, after the task is taken off its list. */
  function MadeReady(b: Board, u: Id): Board
    requires Tidy(b) && u in b.at
  {
    UnlinkKeeps(b, u);
    var l := Ready(b.tcbs[u].priority);
    Moved(b, u, l, End(Unlink(b, u).lists[l]))
  }

  /** Off its list and to the end of the suspended or the termination list. */
  function SetAside(b: Board, u: Id, l: ListId): Board
    requires Tidy(b) && u in b.at && l in b.lists
  {
    UnlinkKeeps(b, u);
    Moved(b, u, l, End(Unlink(b, u).lists[l]))
  }

  lemma MadeReadyKeeps(b: Board, u: Id)
    requires Tidy(b) && u in b.at
    ensures Tidy(MadeReady(b, u)) && MadeReady(b, u).tcbs == b.tcbs
    ensures MadeReady(b, u).at == b.at[u := Ready(b.tcbs[u].priority)]
  {
    UnlinkKeeps(b, u);
    var l := Ready(b.tcbs[u].priority);
    MovedKeeps(b, u, l, End(Unlink(b, u).lists[l]));
  }

  lemma SetAsideKeeps(b: Board, u: Id, l: ListId)
    requires Tidy(b) && u in b.at && l in b.lists && !l.Ready?
    ensures Tidy(SetAside(b, u, l)) && SetAside(b, u, l).tcbs == b.tcbs
    ensures SetAside(b, u, l).at == b.at[u := l]
  {
    UnlinkKeeps(b, u);
    MovedKeeps(b, u, l, End(Unlink(b, u).lists[l]));
  }

  // Priorities.

  /** The ways tasks.c changes the priority fields of a TCB. */
  datatype Change = Set(p: Level) | Lend(p: Level) | GiveBack | TimeOut(p: Level) | Take

  predicate Allowed(t: Tcb, c: Change) { (c.GiveBack? || c.TimeOut?) ==> t.mutexesHeld > 0 }

  function Changed(t: Tcb, c: Change): Tcb
    requires Allowed(t, c)
  {
    match c
    case Set(p) => SetPriority(t, p)
    case Lend(p) => Inherit(t, p).0
    case GiveBack => Disinherit(t).0
    case TimeOut(p) => DisinheritAfterTimeout(t, p)
    case Take => Hold(t)
  }

  /** Whether a ready task is taken off its list and put at the end of the one for its priority;
      vTaskPrioritySet does so even when the priority in use stays the same. */
  predicate Requeues(t: Tcb, c: Change)
    requires Allowed(t, c)
  {
    Changed(t, c).priority != t.priority || (c.Set? && t.base != c.p)
  }

  function Reprioritised(b: Board, u: Id, c: Change): Board
    requires Tidy(b) && u in b.at && Allowed(b.tcbs[u], c)
  {
    var t := b.tcbs[u];
    UnlinkKeeps(b, u);
    if b.at[u].Ready? && Requeues(t, c) then
      var n := Unlink(b, u);
      var l := Ready(Changed(t, c).priority);
      Link(n.(tcbs := n.tcbs[u := Changed(t, c)]), l, End(n.lists[l]), u)
    else b.(tcbs := b.tcbs[u := Changed(t, c)])
  }

  lemma ReprioritisedKeeps(b: Board, u: Id, c: Change)
    requires Tidy(b) && u in b.at && Allowed(b.tcbs[u], c)
    ensures Tidy(Reprioritised(b, u, c))
    ensures Reprioritised(b, u, c).tcbs == b.tcbs[u := Changed(b.tcbs[u], c)]
  {
    hide Partition, OwnLists, Bitmap, Total, Changed;
    PlaceOf(b.lists, b.at, u);
    TcbOf(b.at, b.tcbs, u);
    var t := b.tcbs[u];
    if b.at[u].Ready? && Requeues(t, c) {
      UnlinkKeeps(b, u);
      var n := Unlink(b, u).(tcbs := b.tcbs[u := Changed(t, c)]);
      var l := Ready(Changed(t, c).priority);
      RelinkedAt(b.at, u, l);
      OwnListsUpdate(b.at, b.tcbs, u, l, Changed(t, c));
      Fits(n.lists, n.at, l);
      LinkKeeps(n, l, End(n.lists[l]), u);
    } else {
      OwnReady(b.at, b.tcbs, u);
      OwnListsUpdate(b.at, b.tcbs, u, b.at[u], Changed(t, c));
      assert b.at[u := b.at[u]] == b.at;
    }
  }

  lemma OwnReady(at: map<Id, ListId>, tcbs: map<Id, Tcb>, u: Id)
    requires OwnLists(at, tcbs) && u in at
    ensures u in tcbs && (at[u].Ready? ==> at[u].p == tcbs[u].priority)
  {
  }

  // Tasks come and go.

  /** prvAddNewTaskToReadyList. */
  function Created(b: Board, u: Id, p: Level): Board
    requires Full(b.lists) && b.lists[Ready(p)].index <= |b.lists[Ready(p)].items|
  {
    Link(b.(tcbs := b.tcbs[u := Tcb(p, p, 0, EventValue(p))], tasks := b.tasks + 1), Ready(p), End(b.lists[Ready(p)]), u)
  }

  /** The task is gone. */
  function Discarded(b: Board, u: Id): Board
    requires Tidy(b) && u in b.at
  {
    var n := Unlink(b, u);
    n.(tcbs := n.tcbs - {u}, tasks := n.tasks - 1)
  }

  lemma CreatedKeeps(b: Board, u: Id, p: Level)
    requires Tidy(b) && u !in b.at
    ensures Tidy(Created(b, u, p)) && Created(b, u, p).at == b.at[u := Ready(p)]
  {
    var n := b.(tcbs := b.tcbs[u := Tcb(p, p, 0, EventValue(p))], tasks := b.tasks + 1);
    LinkKeeps(n, Ready(p), End(b.lists[Ready(p)]), u);
    OwnListsUpdate(b.at, b.tcbs, u, Ready(p), n.tcbs[u]);
  }

  lemma DiscardedKeeps(b: Board, u: Id)
    requires Tidy(b) && u in b.at
    ensures Tidy(Discarded(b, u)) && Discarded(b, u).at == b.at - {u}
  {
    UnlinkKeeps(b, u);
    OwnListsUpdate(b.at, b.tcbs, u, b.at[u], b.tcbs[u]);
  }

  // Selection.

  /** taskSELECT_HIGHEST_PRIORITY_TASK by bitmap finds the highest priority with a ready task. */
  lemma SelectsHighest(b: Board, u: Id)
    requires Tidy(b) && u in b.at && b.at[u].Ready?
    ensures 0 <= Highest(b.top) < MAX_PRIORITIES && b.lists[Ready(Highest(b.top))].items != []
    ensures forall v :: v in b.at && b.at[v].Ready? ==> b.tcbs[v].priority <= Highest(b.top)
  {
    HighestIsTop(b.top, b.at[u].p);
    forall v | v in b.at && b.at[v].Ready? ensures b.tcbs[v].priority <= Highest(b.top) {
      assert b.top[b.at[v].p];
    }
  }

  /** Advance pxIndex in the list found. */
  function Turned(b: Board): Board
    requires Full(b.lists) && 0 <= Highest(b.top) < MAX_PRIORITIES
    requires var r := b.lists[Ready(Highest(b.top))]; r.index <= |r.items| && r.items != []
  {
    var l := Ready(Highest(b.top));
    b.(lists := b.lists[l := Advance(b.lists[l])])
  }

  lemma TurnedKeeps(b: Board)
    requires Tidy(b) && 0 <= Highest(b.top) < MAX_PRIORITIES && b.lists[Ready(Highest(b.top))].items != []
    ensures Tidy(Turned(b))
  {
    var l := Ready(Highest(b.top));
    AdvanceTurns(b.lists[l]);
    TotalUpdate(b.lists, l, Advance(b.lists[l]));
  }

  // What operations on ready tasks leave alone.

  lemma LinkElsewhere(b: Board, l: ListId, i: nat, u: Id, other: ListId)
    requires l in b.lists && b.lists[l].index <= |b.lists[l].items| && i <= |b.lists[l].items|
    requires other in b.lists && other != l
    ensures other in Link(b, l, i, u).lists && Link(b, l, i, u).lists[other] == b.lists[other]
  {
  }

  lemma ReprioritisedElsewhere(b: Board, u: Id, c: Change, other: ListId)
    requires Tidy(b) && u in b.at && Allowed(b.tcbs[u], c) && other in b.lists && !other.Ready?
    ensures other in Reprioritised(b, u, c).lists && Reprioritised(b, u, c).lists[other] == b.lists[other]
  {
    hide Partition, OwnLists, Bitmap, Total, Changed, Remove;
    PlaceOf(b.lists, b.at, u);
    TcbOf(b.at, b.tcbs, u);
    if b.at[u].Ready? && Requeues(b.tcbs[u], c) { UnlinkKeeps(b, u); }
  }

  lemma ReprioritisedAt(b: Board, u: Id, c: Change)
    requires Tidy(b) && u in b.at && Allowed(b.tcbs[u], c)
    ensures var at := Reprioritised(b, u, c).at;
            && at.Keys == b.at.Keys
            && forall v :: v in b.at ==> if b.at[v].Ready? then at[v].Ready? else at[v] == b.at[v]
  {
    hide Partition, OwnLists, Bitmap, Total, Changed, Remove;
    PlaceOf(b.lists, b.at, u);
    TcbOf(b.at, b.tcbs, u);
    if b.at[u].Ready? && Requeues(b.tcbs[u], c) {
      RelinkedAt(b.at, u, Ready(Changed(b.tcbs[u], c).priority));
      UnlinkKeeps(b, u);
      assert Reprioritised(b, u, c).at == b.at[u := Ready(Changed(b.tcbs[u], c).priority)];
    }
  }
}
