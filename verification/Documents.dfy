/** The walk over a decoded document in `documents.py`: it may share containers, but not loop. */
module Documents {
  import opened Wrappers
  import opened Basics

  type Id = nat

  // Python objects: mappings and lists are containers on a heap and may be referred to repeatedly.
  datatype Value = Number(isFinite: bool) | Scalar | Container(id: Id)

  // Children in iteration order; a child is named by its position.
  type Heap = map<Id, seq<Value>>
  type Field = seq<nat>

  datatype Failure = NonFinite(field: Field) | Cyclic(field: Field)

  ghost predicate Present(heap: Heap, v: Value) { v.Container? ==> v.id in heap }

  ghost predicate Closed(heap: Heap) {
    forall id, j :: id in heap && 0 <= j < |heap[id]| ==> Present(heap, heap[id][j])
  }

  // ---------------------------------------------------------------- what a document means

  /** The value at `field` below `v`. */
  function Follow(heap: Heap, v: Value, field: Field): Option<Value>
    decreases |field|
  {
    if field == [] then Some(v)
    else if v.Container? && v.id in heap && field[0] < |heap[v.id]|
    then Follow(heap, heap[v.id][field[0]], field[1..])
    else None
  }

  ghost predicate NonFiniteAt(heap: Heap, root: Value, field: Field) {
    Follow(heap, root, field) == Some(Number(false))
  }

  /** `field` ends in a container it has passed before. */
  ghost predicate CyclicAt(heap: Heap, root: Value, field: Field) {
    exists k :: 0 <= k < |field| && Repeats(heap, root, field, k)
  }

  ghost predicate Repeats(heap: Heap, root: Value, field: Field, k: nat)
    requires k <= |field|
  {
    && Follow(heap, root, field[..k]) == Follow(heap, root, field)
    && Follow(heap, root, field).Some? && Follow(heap, root, field).value.Container?
  }

  /** A finite tree of finite numbers, but for sharing. */
  ghost predicate Plain(heap: Heap, root: Value) {
    forall field :: !NonFiniteAt(heap, root, field) && !CyclicAt(heap, root, field)
  }

  lemma {:induction false} FollowAppend(heap: Heap, v: Value, field: Field, more: Field)
    ensures Follow(heap, v, field + more)
         == match Follow(heap, v, field)
            case Some(u) => Follow(heap, u, more)
            case None => None
    decreases |field|
  {
    if field == [] {
      assert field + more == more;
    } else if v.Container? && v.id in heap && field[0] < |heap[v.id]| {
      assert (field + more)[1..] == field[1..] + more;
      FollowAppend(heap, heap[v.id][field[0]], field[1..], more);
    }
  }

  // ---------------------------------------------------------------- the order of completion

  /** The children of each container are finite numbers, scalars or containers completed before. */
  ghost predicate Ordered(heap: Heap, order: seq<Id>) {
    && Distinct(order)
    && (forall i :: 0 <= i < |order| ==> order[i] in heap && Settled(heap, order[..i], order[i]))
  }

  ghost predicate Settled(heap: Heap, before: seq<Id>, id: Id)
    requires id in heap
  {
    forall j :: 0 <= j < |heap[id]| ==> Good(before, heap[id][j])
  }

  ghost predicate Good(checked: seq<Id>, v: Value) {
    && (v.Container? ==> v.id in checked)
    && (v.Number? ==> v.isFinite)
  }

  /** Every step down from a good value moves to the front of the order. */
  lemma {:induction false} Descends(heap: Heap, order: seq<Id>, n: nat, v: Value, field: Field)
    requires Ordered(heap, order) && n <= |order| && Good(order[..n], v)
    ensures Follow(heap, v, field) != Some(Number(false))
    ensures Follow(heap, v, field).Some? && Follow(heap, v, field).value.Container? ==>
              |field| < n && Follow(heap, v, field).value.id in order[..n - |field|]
  {
    if field != [] && Follow(heap, v, field).Some? {
      var i :| 0 <= i < n && order[i] == v.id;
      Descends(heap, order, i, heap[v.id][field[0]], field[1..]);
      if Follow(heap, v, field).value.Container? {
        assert order[..i - |field[1..]|] <= order[..n - |field|];
      }
    }
  }

  lemma NoRepeat(heap: Heap, order: seq<Id>, v: Value, field: Field, k: nat)
    requires Ordered(heap, order) && Good(order, v) && k < |field|
    ensures !Repeats(heap, v, field, k)
  {
    if Repeats(heap, v, field, k) {
      var u := Follow(heap, v, field).value;
      assert order[..|order|] == order;
      Descends(heap, order, |order|, v, field);
      var i :| 0 <= i < |order| && order[i] == u.id;
      assert order[..i + 1][i] == u.id;
      assert field == field[..k] + field[k..];
      FollowAppend(heap, v, field[..k], field[k..]);
      Descends(heap, order, i + 1, u, field[k..]);
    }
  }

  lemma OrderedIsPlain(heap: Heap, order: seq<Id>, root: Value)
    requires Ordered(heap, order) && Good(order, root)
    ensures Plain(heap, root)
  {
    forall field ensures !NonFiniteAt(heap, root, field) && !CyclicAt(heap, root, field) {
      assert order[..|order|] == order;
      Descends(heap, order, |order|, root, field);
      forall k | 0 <= k < |field| ensures !Repeats(heap, root, field, k) {
        NoRepeat(heap, order, root, field, k);
      }
    }
  }

  // ---------------------------------------------------------------- the walk

  class Checker {
    const heap: Heap
    const root: Value
    var active: set<Id>
    var checked: set<Id>
    // The containers in the order they were completed, and in the order they were entered.
    ghost var order: seq<Id>
    ghost var entered: seq<Id>

    constructor (heap: Heap, root: Value)
      requires Closed(heap) && Present(heap, root)
      ensures this.heap == heap && this.root == root && active == {} && Valid()
    {
      this.heap, this.root := heap, root;
      active, checked, order, entered := {}, {}, [], [];
    }

    ghost predicate Valid()
      reads this
    {
      && Closed(heap) && Ordered(heap, order) && active !! checked
      && (forall id :: id in checked <==> id in order)
      && (forall id :: id in entered <==> id in active + checked)
      && Distinct(entered)
      && (forall id :: id in active ==> id in heap)
    }

    /** The active containers are those on the way from the root to `field`. */
    ghost predicate Tracks(field: Field)
      reads this
    {
      forall id :: id in active <==>
        exists k :: 0 <= k < |field| && Follow(heap, root, field[..k]) == Some(Container(id))
    }

    /** What a failure tells is there. */
    ghost predicate Witnessed(failure: Failure)
    {
      match failure
      case NonFinite(field) => NonFiniteAt(heap, root, field)
      case Cyclic(field) => CyclicAt(heap, root, field)
    }

    /** `id` is `field` or on the way to it. */
    ghost predicate OnTheWay(field: Field, id: Id) {
      exists k :: 0 <= k <= |field| && Follow(heap, root, field[..k]) == Some(Container(id))
    }

    lemma TracksChild(field: Field, j: nat)
      requires forall id :: id in active <==> OnTheWay(field, id)
      ensures Tracks(field + [j])
    {
      var longer := field + [j];
      assert forall k :: 0 <= k <= |field| ==> longer[..k] == field[..k];
    }

    lemma TracksSelf(before: set<Id>, field: Field, id: Id)
      requires Follow(heap, root, field) == Some(Container(id)) && active == before + {id}
      requires forall other :: other in before <==>
        (exists k :: 0 <= k < |field| && Follow(heap, root, field[..k]) == Some(Container(other)))
      ensures forall other :: other in active <==> OnTheWay(field, other)
    {
      assert field[..|field|] == field;
    }

    method Enter(id: Id)
      requires Valid() && id in heap && id !in active && id !in checked
      modifies this`active, this`entered
      ensures Valid() && active == old(active) + {id} && entered == old(entered) + [id]
    {
      active := active + {id};
      entered := entered + [id];
    }

    method Leave(id: Id)
      requires Valid() && id in active && Settled(heap, order, id)
      modifies this`active, this`checked, this`order
      ensures Valid() && active == old(active) - {id} && order == old(order) + [id]
    {
      Appended(heap, order, id);
      active := active - {id};
      checked := checked + {id};
      order := order + [id];
    }

    method Finite(value: Value, field: Field) returns (r: Option<Failure>)
      requires Valid() && Present(heap, value)
      requires Follow(heap, root, field) == Some(value) && Tracks(field)
      modifies this
      ensures r.Some? ==> Witnessed(r.value)
      ensures r.None? ==> Valid() && active == old(active) && Good(order, value)
      ensures Distinct(entered)
      ensures old(order) <= order
      decreases heap.Keys - active
    {
      if value.Number? && !value.isFinite { return Some(NonFinite(field)); }
      if value.Container? {
        var identity := value.id;
        if identity in active {
          ghost var k :| 0 <= k < |field| && Follow(heap, root, field[..k]) == Some(Container(identity));
          assert Repeats(heap, root, field, k);
          return Some(Cyclic(field));
        }
        if identity in checked { return None; }
        Enter(identity);
        TracksSelf(old(active), field, identity);
        var children := heap[identity];
        for j := 0 to |children|
          invariant Valid() && active == old(active) + {identity}
          invariant forall id :: id in active <==> OnTheWay(field, id)
          invariant forall i :: 0 <= i < j ==> Good(order, children[i])
          invariant old(order) <= order
        {
          TracksChild(field, j);
          FollowAppend(heap, root, field, [j]);
          r := Finite(children[j], field + [j]);
          if r.Some? { return; }
        }
        Leave(identity);
      }
      r := None;
    }
  }

  lemma Appended(heap: Heap, order: seq<Id>, id: Id)
    requires Ordered(heap, order) && id in heap && id !in order && Settled(heap, order, id)
    ensures Ordered(heap, order + [id])
  {
    var longer := order + [id];
    assert forall i :: 0 <= i <= |order| ==> longer[..i] == order[..i];
    assert order[..|order|] == order;
  }

  /**
    Accepts exactly the documents whose every reachable number is finite and in which no way down
    meets a container twice; a refusal names such a place; no container is entered twice.
   */
  method CheckDocument(heap: Heap, root: Value) returns (r: Option<Failure>, ghost entered: seq<Id>)
    requires Closed(heap) && Present(heap, root)
    ensures r.None? <==> Plain(heap, root)
    ensures r.Some? && r.value.NonFinite? ==> NonFiniteAt(heap, root, r.value.field)
    ensures r.Some? && r.value.Cyclic? ==> CyclicAt(heap, root, r.value.field)
    ensures Distinct(entered)
  {
    var checker := new Checker(heap, root);
    r := checker.Finite(root, []);
    entered := checker.entered;
    if r.None? { OrderedIsPlain(heap, checker.order, root); }
  }
}
