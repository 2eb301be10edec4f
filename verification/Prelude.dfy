/** Shared vocabulary: optional values, bytes, saturating arithmetic, and sums over stream references. */
module Prelude {

  datatype Option<+T> = None | Some(value: T)

  datatype Result<+T, +E> = Ok(value: T) | Err(error: E) {
    predicate IsFailure() {
      Err?
    }

    function PropagateFailure<U>(): Result<U, E>
      requires Err?
    {
      Err(error)
    }

    function Extract(): T
      requires Ok?
    {
      value
    }
  }

  type Byte = x: int | 0 <= x < 0x100
  type Bytes = seq<Byte>

  /** The identity of a stream object. Stream IDs are reused, references are not. */
  type Ref = nat

  function Min(a: nat, b: nat): nat {
    if a <= b then a else b
  }

  /** `saturating_sub`. */
  function Minus(a: nat, b: nat): nat {
    if a <= b then 0 else a - b
  }

  /** The concatenation of the chunks. */
  function Flat(chunks: seq<Bytes>): Bytes {
    if chunks == [] then [] else chunks[0] + Flat(chunks[1..])
  }

  lemma FlatAppend(chunks: seq<Bytes>, chunk: Bytes)
    ensures Flat(chunks + [chunk]) == Flat(chunks) + chunk
  {
    if chunks == [] {
      assert Flat([chunk]) == chunk + Flat([chunk][1..]);
    } else {
      FlatAppend(chunks[1..], chunk);
      assert (chunks + [chunk])[1..] == chunks[1..] + [chunk];
    }
  }

  // Sums over the references below `n`.

  ghost function Total(f: Ref -> nat, n: nat): nat {
    if n == 0 then 0 else Total(f, n - 1) + f(n - 1)
  }

  lemma {:induction false} TotalUpdate(f: Ref -> nat, g: Ref -> nat, n: nat, k: Ref)
    requires k < n
    requires forall j: Ref :: j < n && j != k ==> f(j) == g(j)
    ensures Total(g, n) + f(k) == Total(f, n) + g(k)
  {
    if n == k + 1 {
      TotalSame(f, g, k);
    } else {
      TotalUpdate(f, g, n - 1, k);
    }
  }

  lemma {:induction false} TotalSame(f: Ref -> nat, g: Ref -> nat, n: nat)
    requires forall j: Ref :: j < n ==> f(j) == g(j)
    ensures Total(f, n) == Total(g, n)
  {
    if n > 0 {
      TotalSame(f, g, n - 1);
    }
  }

  lemma {:induction false} TotalMono(f: Ref -> nat, g: Ref -> nat, n: nat)
    requires forall j: Ref :: j < n ==> f(j) <= g(j)
    ensures Total(f, n) <= Total(g, n)
  {
    if n > 0 {
      TotalMono(f, g, n - 1);
    }
  }

  lemma {:induction false} TotalAtLeast(f: Ref -> nat, n: nat, k: Ref)
    requires k < n
    ensures f(k) <= Total(f, n)
  {
    if n > k + 1 {
      TotalAtLeast(f, n - 1, k);
    }
  }
}
