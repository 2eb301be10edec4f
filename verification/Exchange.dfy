/** The `PING`s and `PONG`s that go along with the frames of one side. */
module Exchange {
  import opened Prelude
  import opened Headers
  import opened Encoder

  const MAX_UNPINGED: nat := 0xFFFF_FFFF

  /** The `PONG` that is owed, whether the interval has elapsed, and the data sent since the last `PING`, out of so much. */
  datatype Pace = Pace(owed: Option<U32>, elapsed: bool, unpinged: U32, every: NonZeroU32)

  predicate PingIsDue(p: Pace) {
    p.unpinged >= p.every || p.elapsed
  }

  function DataLenOf(out: OutFrame): nat {
    if out.stream.Some? then |out.stream.value.data| else 0
  }

  function AfterFrame(p: Pace, out: OutFrame): Pace {
    var unpinged := (if out.ping then 0 else p.unpinged) + DataLenOf(out);
    p.(owed := None, elapsed := p.elapsed && !out.ping, unpinged := Min(unpinged, MAX_UNPINGED))
  }

  /** Each frame takes along what is owed and due at that point. */
  ghost predicate Paced(before: Pace, outs: seq<OutFrame>, after: Pace)
    decreases |outs|
  {
    if outs == [] then after == before
    else outs[0].pong == before.owed && outs[0].ping == PingIsDue(before) && Paced(AfterFrame(before, outs[0]), outs[1..], after)
  }

  lemma {:induction false} PacedMore(before: Pace, outs: seq<OutFrame>, mid: Pace, out: OutFrame)
    requires Paced(before, outs, mid) && out.pong == mid.owed && out.ping == PingIsDue(mid)
    ensures Paced(before, outs + [out], AfterFrame(mid, out))
    decreases |outs|
  {
    hide AfterFrame, PingIsDue;
    if outs == [] {
      assert [out][1..] == [];
      assert Paced(AfterFrame(before, out), [], AfterFrame(mid, out));
    } else {
      PacedMore(AfterFrame(before, outs[0]), outs[1..], mid, out);
      assert (outs + [out])[1..] == outs[1..] + [out] && (outs + [out])[0] == outs[0];
    }
  }

  /** The first frame answers the latest `PING` and sends the one that is due. No other frame answers it again. */
  lemma {:induction false} AnswersOnce(before: Pace, outs: seq<OutFrame>, after: Pace)
    requires Paced(before, outs, after)
    ensures outs != [] ==> outs[0].pong == before.owed && outs[0].ping == PingIsDue(before) && after.owed.None?
    ensures forall i | 0 < i < |outs| :: outs[i].pong.None?
    ensures outs == [] ==> after == before
    decreases |outs|
  {
    if outs != [] {
      AnswersOnce(AfterFrame(before, outs[0]), outs[1..], after);
    }
  }

  /** The data in the frames since the last `PING`, if `start` bytes were sent before the first of them. */
  function Since(start: nat, outs: seq<OutFrame>): nat {
    if outs == [] then start
    else
      var last := outs[|outs| - 1];
      (if last.ping then 0 else Since(start, outs[..|outs| - 1])) + DataLenOf(last)
  }

  lemma {:induction false} SinceFirst(start: nat, out: OutFrame, outs: seq<OutFrame>)
    ensures Since(start, [out] + outs) == Since((if out.ping then 0 else start) + DataLenOf(out), outs)
  {
    var all := [out] + outs;
    if outs == [] {
      assert all[..0] == [];
    } else {
      SinceFirst(start, out, outs[..|outs| - 1]);
      assert all[..|all| - 1] == [out] + outs[..|outs| - 1];
    }
  }

  lemma {:induction false} SinceMore(a: nat, b: nat, outs: seq<OutFrame>, every: nat)
    requires a == b || (a >= every && b >= every)
    ensures Since(a, outs) == Since(b, outs) || (Since(a, outs) >= every && Since(b, outs) >= every)
  {
    if outs != [] {
      SinceMore(a, b, outs[..|outs| - 1], every);
    }
  }

  /**
   * After the first frame, a frame carries a `PING` exactly if enough data was sent since the last one. The saturation of
   * the counter makes no difference.
   */
  lemma {:induction false} PingsWhenDue(before: Pace, outs: seq<OutFrame>, after: Pace, i: nat)
    requires Paced(before, outs, after) && 0 < i < |outs|
    ensures outs[i].ping <==> Since(before.unpinged, outs[..i]) >= before.every
    decreases |outs|
  {
    hide Since;
    var next := AfterFrame(before, outs[0]);
    var sent := (if outs[0].ping then 0 else before.unpinged as nat) + DataLenOf(outs[0]);
    var rest := outs[1..];
    assert outs[..i] == [outs[0]] + rest[..i - 1];
    SinceFirst(before.unpinged, outs[0], rest[..i - 1]);
    SinceMore(sent, next.unpinged, rest[..i - 1], before.every);
    if i == 1 {
      assert rest[..0] == [];
      SinceNone(sent);
    } else {
      PingsWhenDue(next, rest, after, i - 1);
    }
  }

  lemma SinceNone(start: nat)
    ensures Since(start, []) == start
  {
  }
}
