// The state behind the lightweight pane grid (src/ui/pane_grid/state.rs):
// the panes in visual order, the value held by each pane and the next
// pane id to hand out.
module PaneGrid {
  import opened Base

  /** Pane: a pane identifier. */
  datatype Pane = Pane(id: nat)

  /** The pane every new grid starts with. */
  const FIRST_PANE: Pane := Pane(0)

  /** position: the index of the first occurrence of the pane, if any. */
  function Position(order: seq<Pane>, pane: Pane): (r: Option<nat>)
    ensures r.Some? <==> pane in order
    ensures r.Some? ==> r.value < |order| && order[r.value] == pane
    ensures r.Some? ==> forall j | 0 <= j < r.value :: order[j] != pane
  {
    if order == [] then None
    else if order[0] == pane then Some(0)
    else
      var rest := Position(order[1..], pane);
      if rest.Some? then Some(rest.value + 1) else None
  }

  /** The panes in order, each with its value. */
  function Pairs<T>(order: seq<Pane>, panes: map<Pane, T>): (r: seq<(Pane, T)>)
    requires forall p | p in order :: p in panes
    ensures |r| == |order|
    ensures forall i | 0 <= i < |order| :: r[i].0 == order[i] && r[i].1 == panes[order[i]]
  {
    if order == [] then [] else [(order[0], panes[order[0]])] + Pairs(order[1..], panes)
  }

  /** Moving the pane at `from` to index `to`: the panes are the same, only their order changes. */
  lemma MovePermutes(order: seq<Pane>, from: nat, to: nat)
    requires from < |order| && to < |order|
    ensures multiset(InsertAt(RemoveAt(order, from), to, order[from])) == multiset(order)
    ensures InsertAt(RemoveAt(order, from), to, order[from])[to] == order[from]
  {
    assert order[from] in multiset(order);
  }

  /** The order lists each pane of the map exactly once, and every id is below the next one. */
  ghost predicate Consistent<T>(order: seq<Pane>, panes: map<Pane, T>, nextId: nat)
  {
    NoDup(order) && (forall p :: p in order <==> p in panes) && (forall p | p in panes :: p.id < nextId)
  }

  /** Inserting a pane with the next id anywhere keeps the order and the map consistent. */
  lemma InsertFresh<T>(order: seq<Pane>, panes: map<Pane, T>, nextId: nat, i: nat, value: T)
    requires Consistent(order, panes, nextId) && i <= |order|
    ensures Consistent(InsertAt(order, i, Pane(nextId)), panes[Pane(nextId) := value], nextId + 1)
  {
    var x := Pane(nextId);
    assert x !in panes;
    var r := InsertAt(order, i, x);
    assert multiset(r) == multiset(order) + multiset{x};
    forall p ensures multiset(r)[p] <= 1 {
      if p == x {
        assert multiset(order)[x] == 0;
      }
    }
    forall p ensures p in r <==> p in order || p == x {
      assert p in r <==> p in multiset(r);
      assert p in order <==> p in multiset(order);
    }
  }

  /** State: the panes in visual order and their values. */
  class State<T> {
    var order: seq<Pane>
    var panes: map<Pane, T>
    var nextId: nat

    /** The order lists each pane of the map exactly once, and every id is below the next one. */
    ghost predicate Valid()
      reads this
    {
      Consistent(order, panes, nextId)
    }

    /** new: one pane, the first, holding the initial value. */
    constructor (initial: T)
      ensures Valid()
      ensures order == [FIRST_PANE] && panes == map[FIRST_PANE := initial] && nextId == 1
    {
      order := [FIRST_PANE];
      panes := map[FIRST_PANE := initial];
      nextId := 1;
    }

    /** len: the length of the order, which is the number of panes. */
    function Len(): (r: nat)
      requires Valid()
      reads this
      ensures r == |panes|
    {
      NoDupCard(order);
      assert panes.Keys == set p | p in order;
      |order|
    }

    /** is_empty: no pane at all. */
    function IsEmpty(): (r: bool)
      requires Valid()
      reads this
      ensures r <==> panes == map[]
    {
      if order == [] then true
      else
        assert order[0] in panes;
        false
    }

    /** get: the pane's value, when the pane is in the grid. */
    function Get(pane: Pane): (r: Option<T>)
      requires Valid()
      reads this
      ensures r.Some? <==> pane in order
      ensures r.Some? ==> r.value == panes[pane]
    {
      if pane in panes then Some(panes[pane]) else None
    }

    /** iter: the panes in visual order with their values; every pane in the order has one. */
    function Iter(): (r: seq<(Pane, T)>)
      requires Valid()
      reads this
      ensures |r| == |order| && NoDup(order)
      ensures forall i | 0 <= i < |order| :: r[i].0 == order[i] && r[i].1 == panes[order[i]]
    {
      Pairs(order, panes)
    }

    /**
     * insert_after: nothing for a pane not in the grid; otherwise a pane
     * with a fresh id is placed right after it and holds the value.
     */
    method InsertAfter(pane: Pane, state: T) returns (r: Option<Pane>)
      requires Valid()
      modifies this`order, this`panes, this`nextId
      ensures Valid()
      ensures r.None? <==> pane !in old(order)
      ensures r.None? ==> order == old(order) && panes == old(panes) && nextId == old(nextId)
      ensures r.Some? ==> r.value == Pane(old(nextId)) && r.value !in old(panes) && nextId == old(nextId) + 1
      ensures r.Some? ==> order == InsertAt(old(order), Position(old(order), pane).value + 1, r.value)
      ensures r.Some? ==> panes == old(panes)[r.value := state]
    {
      var index := Position(order, pane);
      if index.None? {
        return None;
      }
      var newPane := Pane(nextId);
      assert newPane !in panes;
      var newOrder, newPanes := InsertAt(order, index.value + 1, newPane), panes[newPane := state];
      InsertFresh(order, panes, nextId, index.value + 1, state);
      order, panes, nextId := newOrder, newPanes, nextId + 1;
      r := Some(newPane);
    }

    /**
     * move_to: nothing when either pane is missing or both are the same;
     * otherwise `a` is taken out and put at `b`'s index. The panes stay
     * the same, only their order changes.
     */
    method MoveTo(a: Pane, b: Pane) returns (moved: bool)
      requires Valid()
      modifies this`order
      ensures Valid()
      ensures moved <==> a in old(order) && b in old(order) && a != b
      ensures !moved ==> order == old(order)
      ensures moved ==> order == InsertAt(RemoveAt(old(order), Position(old(order), a).value), Position(old(order), b).value, a)
      ensures moved ==> order[Position(old(order), b).value] == a
      ensures multiset(order) == multiset(old(order))
    {
      var from := Position(order, a);
      var to := Position(order, b);
      if from.None? || to.None? {
        return false;
      }
      if from.value == to.value {
        return false;
      }
      MovePermutes(order, from.value, to.value);
      var moved' := InsertAt(RemoveAt(order, from.value), to.value, a);
      SameElements(order, moved');
      order := moved';
      moved := true;
    }

    /** for_each_mut: each pane's value replaced by `f` applied to the pane and its value, in visual order. */
    method ForEachMut(f: (Pane, T) -> T)
      requires Valid()
      modifies this`panes
      ensures Valid()
      ensures panes.Keys == old(panes).Keys
      ensures forall p | p in panes :: panes[p] == f(p, old(panes)[p])
    {
      var order := this.order;
      for i := 0 to |order|
        invariant panes.Keys == old(panes).Keys
        invariant forall k | 0 <= k < i :: panes[order[k]] == f(order[k], old(panes)[order[k]])
        invariant forall k | i <= k < |order| :: panes[order[k]] == old(panes)[order[k]]
      {
        var pane := order[i];
        forall k | 0 <= k < |order| && k != i ensures order[k] != pane {
          if k < i { NoDupIndices(order, k, i); } else { NoDupIndices(order, i, k); }
        }
        if pane in panes {
          panes := panes[pane := f(pane, panes[pane])];
        }
      }
      forall p | p in panes ensures panes[p] == f(p, old(panes)[p]) {
        var k := Position(order, p).value;
      }
    }
  }
}
