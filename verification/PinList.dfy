/** The intrusive doubly linked list of the turn queue. The links are in the elements. It refines a duplicate-free sequence. */
module PinLists {
  import opened TurnQueue

  /** The links of an element. The owner is the ID of the list that it is linked into, or 0. */
  class Node {
    var owner: nat
    var prev: Node?
    var next: Node?

    constructor ()
      ensures owner == 0
    {
      owner, prev, next := 0, null, null;
    }
  }

  class PinList {
    const id: nat
    var head: Node?
    var tail: Node?
    var len: nat
    ghost var elems: seq<Node>

    constructor (id: nat)
      requires id > 0
      ensures Valid() && elems == [] && this.id == id
    {
      this.id := id;
      head, tail, len, elems := null, null, 0, [];
    }

    ghost function At(i: int): Node?
      reads this
    {
      if 0 <= i < |elems| then elems[i] else null
    }

    ghost predicate Linked(i: int)
      requires 0 <= i < |elems|
      reads this, elems
    {
      elems[i].owner == id && elems[i].prev == At(i - 1) && elems[i].next == At(i + 1)
    }

    ghost predicate Valid()
      reads this, elems
    {
      && id > 0 && Distinct(elems) && len == |elems|
      && head == At(0) && tail == At(|elems| - 1)
      && (forall i | 0 <= i < |elems| :: Linked(i))
    }

    /** The owner tells whether the node is in this list. */
    ghost predicate Knows(n: Node)
      reads this, n
    {
      n.owner == id <==> n in elems
    }

    predicate Contains(element: Node)
      reads this, element
    {
      element.owner == id
    }

    /** The nodes of a list that was valid have not changed, so it still is. */
    twostate lemma StaysValid()
      requires old(Valid()) && unchanged(this)
      requires forall i | 0 <= i < |elems| :: old(elems[i].owner) == id ==> unchanged(elems[i])
      ensures Valid()
    {
      forall i | 0 <= i < |elems|
        ensures Linked(i)
      {
        assert old(Linked(i));
      }
    }

    method PushBack(element: Node) returns (added: bool)
      requires Valid() && Knows(element) && (element.owner == 0 || element.owner == id)
      modifies this, element, tail
      ensures Valid() && elems == Join(old(elems), element) && Knows(element)
      ensures added <==> element !in old(elems)
      ensures forall n: Node :: old(allocated(n)) && n != element ==> n.owner == old(n.owner)
      ensures forall l: PinList :: old(allocated(l)) && l.id != id && old(l.Valid()) ==> l.Valid() && l.elems == old(l.elems)
    {
      if element.owner != 0 {
        return false;
      }
      element.owner, element.prev, element.next := id, tail, null;
      if tail != null {
        tail.next := element;
      } else {
        head := element;
      }
      tail, len := element, len + 1;
      ghost var n := |elems|;
      elems := elems + [element];
      forall i | 0 <= i <= n
        ensures Linked(i)
      {
        assert i < n ==> old(Linked(i)) && elems[i] == old(elems[i]) != element;
      }
      forall l: PinList | old(allocated(l)) && l.id != id && old(l.Valid())
        ensures l.Valid() && l.elems == old(l.elems)
      {
        assert n > 0 ==> old(Linked(n - 1));
        l.StaysValid();
      }
      return true;
    }

    /** Links the neighbours of the element to each other. */
    method Splice(element: Node, prev: Node?, next: Node?)
      requires element != prev && element != next && (prev == next ==> prev == null)
      modifies `head, `tail, element, prev, next
      ensures head == (if prev == null then next else old(head)) && tail == if next == null then prev else old(tail)
      ensures element.owner == 0
      ensures prev != null ==> prev.next == next && prev.prev == old(prev.prev) && prev.owner == old(prev.owner)
      ensures next != null ==> next.prev == prev && next.next == old(next.next) && next.owner == old(next.owner)
    {
      element.prev, element.next := null, null;
      if prev != null {
        prev.next := next;
      } else {
        head := next;
      }
      if next != null {
        next.prev := prev;
      } else {
        tail := prev;
      }
      element.owner := 0;
    }

    /** Takes the element at `i` out of the list. */
    method Unlink(element: Node, ghost i: nat)
      requires Valid() && i < |elems| && element == elems[i]
      modifies this, element, element.prev, element.next
      ensures Valid() && elems == old(elems[..i] + elems[i + 1..]) && element.owner == 0 && element !in elems
      ensures forall n: Node :: old(allocated(n)) && n != element ==> n.owner == old(n.owner)
      ensures forall l: PinList :: old(allocated(l)) && l.id != id && old(l.Valid()) ==> l.Valid() && l.elems == old(l.elems)
    {
      assert Linked(i);
      var prev, next := element.prev, element.next;
      assert prev != null ==> Linked(i - 1);
      assert next != null ==> Linked(i + 1);
      Splice(element, prev, next);
      len := len - 1;
      elems := elems[..i] + elems[i + 1..];
      forall j | 0 <= j < |elems|
        ensures Linked(j)
      {
        ghost var was := if j < i then j else j + 1;
        assert elems[j] == old(elems[was]) && old(Linked(was));
      }
      forall l: PinList | old(allocated(l)) && l.id != id && old(l.Valid())
        ensures l.Valid() && l.elems == old(l.elems)
      {
        l.StaysValid();
      }
    }

    /** The list without the element, in the same order. Nothing happens to an element of another list. */
    method Remove(element: Node) returns (was: bool)
      requires Valid() && Knows(element)
      modifies this, element, element.prev, element.next
      ensures Valid() && elems == Leave(old(elems), element) && Knows(element)
      ensures was <==> element in old(elems)
      ensures forall n: Node :: old(allocated(n)) && n != element ==> n.owner == old(n.owner)
      ensures forall l: PinList :: old(allocated(l)) && l.id != id && old(l.Valid()) ==> l.Valid() && l.elems == old(l.elems)
    {
      if !Contains(element) {
        return false;
      }
      ghost var i :| 0 <= i < |elems| && elems[i] == element;
      LeaveAt(elems, i);
      Unlink(element, i);
      return true;
    }

    method PopFront() returns (element: Node?)
      requires Valid()
      modifies this, head, if head == null then {} else {head.next}
      ensures Valid() && element == old(At(0)) && elems == if old(elems) == [] then [] else old(elems)[1..]
      ensures element != null ==> element.owner == 0
      ensures forall n: Node :: old(allocated(n)) && n != element ==> n.owner == old(n.owner)
      ensures forall l: PinList :: old(allocated(l)) && l.id != id && old(l.Valid()) ==> l.Valid() && l.elems == old(l.elems)
    {
      element := head;
      if element != null {
        assert Linked(0);
        Unlink(element, 0);
      }
    }

    /** The list is dropped: all its elements are free to join another one. */
    method Drop()
      requires Valid()
      modifies this, elems
      ensures Valid() && elems == [] && forall n <- old(elems) :: n.owner == 0
    {
      ghost var done := 0;
      while head != null
        invariant Valid() && done <= |old(elems)| && elems == old(elems)[done..]
        invariant forall i | 0 <= i < done :: old(elems)[i].owner == 0
        decreases |elems|
      {
        assert Linked(0);
        assert forall i | 0 <= i < done :: old(elems)[i] != old(elems)[done];
        var _ := PopFront();
        done := done + 1;
      }
    }

    /** The elements, found by following the links from the head. */
    method Iter() returns (found: seq<Node>)
      requires Valid()
      ensures found == elems
    {
      found := [];
      var next := head;
      while next != null
        invariant |found| <= |elems| && found == elems[..|found|] && next == At(|found|)
        decreases |elems| - |found|
      {
        assert Linked(|found|);
        found, next := found + [next], next.next;
      }
    }
  }

  /** An element is in at most one list. */
  lemma InOneList(a: PinList, b: PinList, n: Node)
    requires a.Valid() && b.Valid() && a.id != b.id && n in a.elems
    ensures n !in b.elems
  {
    var i :| 0 <= i < |a.elems| && a.elems[i] == n;
    assert a.Linked(i);
    forall j | 0 <= j < |b.elems|
      ensures b.elems[j] != n
    {
      assert b.Linked(j);
    }
  }
}
