/** Base windows, the shared pool, and the credit threshold. */
module Flow {
  import opened Prelude

  const CREDIT_THRESHOLD: nat := 32 * 1024

  /** Credit below this is held back. Holding it back never closes a base window. */
  function CreditThreshold(base: nat): (t: nat)
    ensures 1 <= t
    ensures base >= 1 ==> forall uncredited: nat :: uncredited < t ==> BaseRoom(uncredited, base) >= 1
  {
    var t := Min(CREDIT_THRESHOLD, base / 2);
    if t < 1 then 1 else t
  }

  /** The documented bound by half of the window fails for a window of one byte, and only there. */
  lemma ThresholdAtMostHalf(base: nat)
    requires base >= 1
    ensures CreditThreshold(base) <= base / 2 <==> base >= 2
  {
    assert base >= 2 ==> base / 2 >= 1;
  }

  /** The threshold is the most that is within 32 KiB and within half of the window, but not zero. */
  lemma ThresholdIsLargest(base: nat, t: nat)
    ensures t == CreditThreshold(base) <==>
              && t >= 1 && (t > 1 ==> t <= 0x8000 && 2 * t <= base)
              && forall u: nat :: u <= 0x8000 && 2 * u <= base ==> u <= t
  {
    if t >= 1 && (t > 1 ==> t <= 0x8000 && 2 * t <= base) && forall u: nat :: u <= 0x8000 && 2 * u <= base ==> u <= t {
      var m := Min(0x8000, base / 2);
      assert 2 * m <= base;
    }
  }

  /** The part of the bytes in flight that is beyond the base window. */
  function Borrowed(unacked: nat, base: nat): nat {
    Minus(unacked, base)
  }

  function BaseRoom(unacked: nat, base: nat): nat {
    Minus(base, unacked)
  }

  /** The use of the pool after the share of one stream changes. */
  function Moved(used: nat, before: nat, after: nat): nat {
    Minus(used, before) + after
  }

  /** What the streams of one direction have borrowed in total, and how much there is. */
  class Pool {
    const size: nat
    var used: nat

    constructor (size: nat)
      ensures this.size == size && used == 0
    {
      this.size := size;
      used := 0;
    }

    function Room(): nat
      reads this
    {
      Minus(size, used)
    }

    predicate IsOverdrawn()
      reads this
    {
      used > size
    }
  }

  /** The count of one direction, and the part of it that is free of charge. */
  class Window {
    const base: nat
    var unacked: nat

    constructor (base: nat)
      ensures this.base == base && unacked == 0
    {
      this.base := base;
      unacked := 0;
    }

    function Share(): nat
      reads this
    {
      Borrowed(unacked, base)
    }

    method Add(pool: Pool, len: nat)
      requires Share() <= pool.used
      modifies this`unacked, pool`used
      ensures unacked == old(unacked) + len
      ensures pool.used == Moved(old(pool.used), old(Share()), Share())
    {
      var _ := Set(pool, unacked + len);
    }

    /** Sets the count. The pool changes by the difference of the shares, and the result tells if it got something back. */
    method Set(pool: Pool, unacked: nat) returns (freed: bool)
      requires Share() <= pool.used
      modifies this`unacked, pool`used
      ensures this.unacked == unacked
      ensures pool.used == Moved(old(pool.used), old(Share()), Share())
      ensures freed <==> Share() < old(Share())
      ensures freed <==> pool.used < old(pool.used)
    {
      var before := Share();
      var after := Borrowed(unacked, base);
      pool.used := pool.used - before + after;
      this.unacked := unacked;
      freed := after < before;
    }
  }
}
