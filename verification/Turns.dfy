/** A queue without duplicates, as a sequence. Any element can leave it. */
module TurnQueue {

  ghost predicate Distinct<T>(q: seq<T>) {
    forall i, j | 0 <= i < j < |q| :: q[i] != q[j]
  }

  /** No other element is at the front. */
  predicate HasTurn<T(==)>(q: seq<T>, x: T) {
    q == [] || q[0] == x
  }

  function Join<T(==)>(q: seq<T>, x: T): seq<T> {
    if x in q then q else q + [x]
  }

  function Leave<T(==)>(q: seq<T>, x: T): (r: seq<T>)
    ensures x !in q ==> r == q
  {
    if q == [] then []
    else if q[0] == x then q[1..]
    else [q[0]] + Leave(q[1..], x)
  }

  lemma JoinMembers<T>(q: seq<T>, x: T)
    requires Distinct(q)
    ensures Distinct(Join(q, x))
    ensures forall y :: y in Join(q, x) <==> y in q || y == x
  {
  }

  lemma {:induction false} LeaveMembers<T>(q: seq<T>, x: T)
    requires Distinct(q)
    ensures Distinct(Leave(q, x))
    ensures forall y :: y in Leave(q, x) <==> y in q && y != x
    ensures |Leave(q, x)| == |q| - (if x in q then 1 else 0)
  {
    if q != [] && q[0] != x {
      LeaveMembers(q[1..], x);
      assert q[0] !in q[1..];
      assert forall y :: y in q <==> y == q[0] || y in q[1..];
    }
  }

  lemma {:induction false} LeaveAt<T>(q: seq<T>, i: nat)
    requires Distinct(q) && i < |q|
    ensures Leave(q, q[i]) == q[..i] + q[i + 1..]
  {
    if i > 0 {
      var rest := q[1..];
      LeaveAt(rest, i - 1);
      assert rest[i - 1] == q[i] && q[0] != q[i];
      assert [q[0]] + (rest[..i - 1] + rest[i..]) == q[..i] + q[i + 1..];
    }
  }
}
