/** When exactly a stream borrows at most twice the credit it received: it depends on how the round trip time grows. */
module Growth {
  import opened Prelude
  import opened Flow
  import opened SharedFlow
  import opened Outbound
  import opened Rate

  // Runs with one pool.

  /** The size of the pool never changes, and what the stream has borrowed is a part of what is used. */
  ghost predicate OnePool(d: Decay, base: nat, limit: nat, pool: nat, s: Sender, events: seq<Event>)
    decreases |events|
  {
    events != [] ==>
      var (before, last) := (events[..|events| - 1], events[|events| - 1]);
      && OnePool(d, base, limit, pool, s, before)
      && (last.Polled? ==>
            last.sh.txSize == pool && Borrowed(Steps(d, base, limit, s, before).unacked, base) <= last.sh.txUsed)
  }

  ghost predicate Twice(d: Decay, base: nat, limit: nat, start: real, events: seq<Event>) {
    var s := Steps(d, base, limit, NewSender(start), events);
    Borrowed(s.unacked, base) <= 2 * s.credited
  }

  /** The bound holds in every run with this pool and these samples. */
  ghost predicate AlwaysTwice(d: Decay, base: nat, limit: nat, pool: nat, samples: seq<real>) {
    forall start: real, events: seq<Event>
      | SamplesOf(events) == samples && OnePool(d, base, limit, pool, NewSender(start), events) ::
      Twice(d, base, limit, start, events)
  }

  ghost predicate Positive(samples: seq<real>) {
    forall i | 0 <= i < |samples| :: samples[i] > 0.0
  }

  // How much credit it takes.

  lemma Quotients(a: real, b: real)
    requires 0.0 < a < b
    ensures a / (b - a) > 0.0 && (b - a) / a > 0.0
    ensures a / (b - a) * ((b - a) / a) == 1.0
    ensures b / a == 1.0 + (b - a) / a
  {
    var y := (b - a) / a;
    assert y * a == b - a;
    DivideBy(b, a, 1.0 + y);
  }

  lemma DivideBy(b: real, a: real, x: real)
    requires a > 0.0 && x * a == b
    ensures b / a == x
  {
    var q := b / a;
    assert q * a == b;
    assert (q - x) * a == 0.0;
  }

  function RoundUp(x: real): nat
    requires x > 0.0
  {
    if x.Floor as real == x then x.Floor else x.Floor + 1
  }

  /**
   * The least credit that, received while the round trip time is `a`, stands for at least one byte more than twice
   * itself once it is `b`.
   */
  function Need(a: real, b: real): (c: nat)
    requires 0.0 < a < b
    ensures c >= 1
  {
    Quotients(a, b);
    RoundUp(a / (b - a) / 2.0)
  }

  lemma Scale(x: real, y: real, r: real)
    requires r > 0.0
    ensures x <= y <==> x * r <= y * r
  {
  }

  lemma Rescaled(c: nat, a: real, b: real, r: real)
    requires a > 0.0 && b / a == 1.0 + r
    ensures Times(PerLoop(c, a), b) == c as real + c as real * r
  {
    var x := c as real;
    assert x / a * b == x * (b / a);
    assert x * (1.0 + r) == x + x * r;
  }

  lemma NeedExactly(a: real, b: real, c: nat)
    requires 0.0 < a < b
    ensures c >= Need(a, b) <==> 2.0 * Times(PerLoop(c, a), b) >= 2.0 * c as real + 1.0
  {
    var (q, r) := (a / (b - a), (b - a) / a);
    Quotients(a, b);
    Rescaled(c, a, b, r);
    assert c >= Need(a, b) <==> c as real >= q / 2.0;
    Scale(q / 2.0, c as real, r);
    assert q / 2.0 * r == 0.5;
  }

  /** The pool is too small for any growth to matter. */
  ghost predicate Tame(samples: seq<real>, pool: nat)
    requires Positive(samples)
  {
    forall i, j | 0 <= i < j < |samples| && samples[i] < samples[j] :: pool <= 2 * Need(samples[i], samples[j])
  }

  // In a tame run, the bound holds.

  function Least(samples: seq<real>): real
    requires samples != []
  {
    var last := samples[|samples| - 1];
    if |samples| == 1 then last
    else
      var least := Least(samples[..|samples| - 1]);
      if last < least then last else least
  }

  lemma {:induction false} LeastIs(samples: seq<real>)
    requires samples != [] && Positive(samples)
    ensures Least(samples) > 0.0 && Least(samples) <= samples[|samples| - 1]
    ensures exists i :: 0 <= i < |samples| && samples[i] == Least(samples)
  {
    var n := |samples| - 1;
    assert samples[n] > 0.0;
    if n > 0 {
      LeastIs(samples[..n]);
      if Least(samples[..n]) <= samples[n] {
        var i :| 0 <= i < n && samples[..n][i] == Least(samples);
        assert samples[i] == Least(samples);
      }
    }
  }

  /** Every credit came when the round trip time was at least the least one. */
  ghost predicate Bounded(s: Sender, samples: seq<real>, base: nat)
    requires Positive(samples)
  {
    && s.srtt == (if samples == [] then None else Some(samples[|samples| - 1]))
    && s.est.rate >= 0.0
    && (samples == [] ==> s.est.rate == 0.0)
    && (samples != [] ==> Least(samples) > 0.0 && s.est.rate <= PerLoop(s.credited, Least(samples)))
    && Borrowed(s.unacked, base) <= 2 * s.credited
  }

  lemma PerLoopLess(c: nat, a: real, b: real)
    requires 0.0 < a <= b
    ensures PerLoop(c, b) <= PerLoop(c, a)
  {
    var x := c as real;
    var (p, q) := (x / a, x / b);
    assert p * a == x && q * b == x && p >= 0.0;
    TimesGrows(a, b, p);
    TimesGrows(a, a, p);
    Scale(q, p, b);
  }

  lemma PerLoopAdd(c: nat, e: nat, a: real)
    requires a > 0.0
    ensures PerLoop(c, a) + PerLoop(e, a) == PerLoop(c + e, a)
  {
  }

  lemma SampledBounded(s: Sender, samples: seq<real>, base: nat, srtt: real)
    requires Positive(samples) && Bounded(s, samples, base) && srtt > 0.0
    ensures Positive(samples + [srtt]) && Bounded(s.(srtt := Some(srtt)), samples + [srtt], base)
  {
    hide PerLoop;
    var more := samples + [srtt];
    assert more[..|samples|] == samples;
    LeastIs(more);
    if samples != [] {
      PerLoopLess(s.credited, Least(more), Least(samples));
    }
  }

  lemma CreditedBounded(d: Decay, base: nat, limit: nat, s: Sender, samples: seq<real>, credit: nat, now: real)
    requires Decays(d) && Positive(samples) && Bounded(s, samples, base)
    ensures Bounded(Step(d, base, limit, s, Credited(credit, now)), samples, base)
  {
    hide Decays, Plan, Value, PerLoop, MayHave, Least;
    if credit <= s.unacked && samples != [] {
      var (tau, lo) := (samples[|samples| - 1], Least(samples));
      LeastIs(samples);
      DecayLeaves(d, s.est, now, tau);
      PerLoopLess(credit, lo, tau);
      PerLoopAdd(s.credited, credit, lo);
    }
  }

  lemma PlanInPool(me: Ref, waiting: nat, unacked: nat, sh: Shared, base: nat, limit: nat, allowance: nat)
    requires Borrowed(unacked, base) <= sh.txUsed
    ensures var p := Plan(me, waiting, unacked, sh, base, limit, allowance);
            || Borrowed(p.unacked, base) <= Borrowed(unacked, base)
            || (Borrowed(p.unacked, base) <= allowance && Borrowed(p.unacked, base) <= sh.txSize)
  {
    hide PassTurn, TakesTurn, Sends;
  }

  /** The allowance is at most twice the credit, or the pool is. */
  lemma AllowedBounded(d: Decay, s: Sender, samples: seq<real>, base: nat, pool: nat, now: real)
    requires Decays(d) && Positive(samples) && Bounded(s, samples, base) && Tame(samples, pool)
    ensures MayHave(d, s, now) <= 2 * s.credited || pool <= 2 * s.credited
  {
    hide Decays, Value, Times, PerLoop, Least, Need;
    if samples == [] {
      assert MayHave(d, s, now) == 0;
    } else {
      var (tau, lo, c) := (samples[|samples| - 1], Least(samples), s.credited);
      LeastIs(samples);
      DecayLeaves(d, s.est, now, tau);
      TimesGrows(Value(d, s.est, now, tau), PerLoop(c, lo), tau);
      TwiceAllowance(Value(d, s.est, now, tau), tau);
      if tau == lo {
        SameAgain(c, lo);
      } else {
        NeedExactly(lo, tau, c);
      }
    }
  }

  lemma SameAgain(c: nat, a: real)
    requires a > 0.0
    ensures Times(PerLoop(c, a), a) == c as real
  {
  }

  lemma PolledBounded(d: Decay, base: nat, limit: nat, s: Sender, samples: seq<real>, pool: nat, ev: Event)
    requires Decays(d) && Positive(samples) && Bounded(s, samples, base) && Tame(samples, pool)
    requires ev.Polled? && ev.sh.txSize == pool && Borrowed(s.unacked, base) <= ev.sh.txUsed
    ensures Bounded(Step(d, base, limit, s, ev), samples, base)
  {
    hide Decays, Plan, PerLoop, MayHave, Least, Tame;
    AllowedBounded(d, s, samples, base, pool, ev.now);
    PlanInPool(ev.me, ev.waiting, s.unacked, ev.sh, base, limit, MayHave(d, s, ev.now));
  }

  lemma {:induction false} TameBounded(d: Decay, base: nat, limit: nat, pool: nat, start: real, events: seq<Event>)
    requires Decays(d) && Positive(SamplesOf(events)) && Tame(SamplesOf(events), pool)
    requires OnePool(d, base, limit, pool, NewSender(start), events)
    ensures Bounded(Steps(d, base, limit, NewSender(start), events), SamplesOf(events), base)
  {
    hide Decays, Plan, PerLoop, MayHave, Least, Need, Value;
    if events != [] {
      var n := |events| - 1;
      var (before, ev) := (events[..n], events[n]);
      var (xs, ys) := (SamplesOf(before), SamplesOf(events));
      assert xs <= ys;
      assert forall i | 0 <= i < |xs| :: xs[i] == ys[i];
      TameBounded(d, base, limit, pool, start, before);
      var s := Steps(d, base, limit, NewSender(start), before);
      match ev
      case Sampled(srtt) =>
        if srtt > 0.0 {
          SampledBounded(s, xs, base, srtt);
        }
      case Credited(credit, now) => CreditedBounded(d, base, limit, s, xs, credit, now);
      case Polled(_, _, _, _) => PolledBounded(d, base, limit, s, xs, pool, ev);
    }
  }

  // In any other case there is a run that breaks it.

  /** The events lead from one state to another, with one pool and these samples. */
  ghost predicate Goes(d: Decay, base: nat, limit: nat, pool: nat, s: Sender, events: seq<Event>, s': Sender, samples: seq<real>) {
    Steps(d, base, limit, s, events) == s' && OnePool(d, base, limit, pool, s, events) && SamplesOf(events) == samples
  }

  lemma GoesNowhere(d: Decay, base: nat, limit: nat, pool: nat, s: Sender)
    ensures Goes(d, base, limit, pool, s, [], s, [])
  {
  }

  lemma GoesOne(d: Decay, base: nat, limit: nat, pool: nat, s: Sender, ev: Event)
    requires ev.Polled? ==> ev.sh.txSize == pool && Borrowed(s.unacked, base) <= ev.sh.txUsed
    ensures var samples := if ev.Sampled? && ev.srtt > 0.0 then [ev.srtt] else [];
            Goes(d, base, limit, pool, s, [ev], Step(d, base, limit, s, ev), samples)
  {
    hide Step;
    assert [ev][..0] == [];
    assert Steps(d, base, limit, s, [ev][..0]) == s;
    assert OnePool(d, base, limit, pool, s, [ev][..0]) && SamplesOf([ev][..0]) == [];
    assert ev.Sampled? ==> [] + [ev.srtt] == [ev.srtt];
  }

  lemma {:induction false} GoesOn(d: Decay, base: nat, limit: nat, pool: nat, s: Sender, a: seq<Event>, s1: Sender, xs: seq<real>,
                                  b: seq<Event>, s2: Sender, ys: seq<real>)
    requires Goes(d, base, limit, pool, s, a, s1, xs) && Goes(d, base, limit, pool, s1, b, s2, ys)
    ensures Goes(d, base, limit, pool, s, a + b, s2, xs + ys)
    ensures ys == [] ==> Goes(d, base, limit, pool, s, a + b, s2, xs)
    decreases |b|
  {
    hide Step;
    assert ys == [] ==> xs + ys == xs;
    if b == [] {
      assert a + b == a;
    } else {
      var n := |b| - 1;
      var (s3, zs) := (Steps(d, base, limit, s1, b[..n]), SamplesOf(b[..n]));
      GoesOn(d, base, limit, pool, s, a, s1, xs, b[..n], s3, zs);
      assert (a + b)[..|a + b| - 1] == a + b[..n] && (a + b)[|a + b| - 1] == b[n];
      assert forall x: real :: xs + (zs + [x]) == xs + zs + [x];
    }
  }

  /** Nothing but samples. */
  function Samplings(samples: seq<real>): seq<Event> {
    if samples == [] then [] else Samplings(samples[..|samples| - 1]) + [Sampled(samples[|samples| - 1])]
  }

  lemma {:induction false} SamplingsGo(d: Decay, base: nat, limit: nat, pool: nat, s: Sender, samples: seq<real>)
    requires Positive(samples)
    ensures var s' := if samples == [] then s else s.(srtt := Some(samples[|samples| - 1]));
            Goes(d, base, limit, pool, s, Samplings(samples), s', samples)
  {
    hide Plan, MayHave, Add, Goes;
    if samples == [] {
      GoesNowhere(d, base, limit, pool, s);
    } else {
      var n := |samples| - 1;
      var (xs, last) := (samples[..n], Sampled(samples[n]));
      SamplingsGo(d, base, limit, pool, s, xs);
      var s1 := if xs == [] then s else s.(srtt := Some(xs[n - 1]));
      GoesOne(d, base, limit, pool, s1, last);
      GoesOn(d, base, limit, pool, s, Samplings(xs), s1, xs, [last], s1.(srtt := Some(samples[n])), [samples[n]]);
      assert xs + [samples[n]] == samples;
    }
  }

  /** The stream has a byte to send, and it is the only one that uses the pool. */
  function SendByte(base: nat, pool: nat, unacked: nat): Event {
    Polled(0, 1, Shared(0, 0, pool, Borrowed(unacked, base), [], {}), 0.0)
  }

  lemma ByteGoes(d: Decay, base: nat, limit: nat, pool: nat, s: Sender)
    requires limit >= 1 && (s.unacked < base || (s.unacked < base + MayHave(d, s, 0.0) && s.unacked < base + pool))
    ensures Goes(d, base, limit, pool, s, [SendByte(base, pool, s.unacked)], s.(unacked := s.unacked + 1), [])
  {
    hide MayHave, Goes;
    GoesOne(d, base, limit, pool, s, SendByte(base, pool, s.unacked));
  }

  /** Bytes are sent and credited, one at a time. */
  function Rounds(base: nat, pool: nat, c: nat): seq<Event> {
    if c == 0 then [] else Rounds(base, pool, c - 1) + [SendByte(base, pool, 0)] + [Credited(1, 0.0)]
  }

  /** Bytes are sent, one at a time, and none is credited. */
  function Borrowing(base: nat, pool: nat, n: nat): seq<Event> {
    if n == 0 then [] else Borrowing(base, pool, n - 1) + [SendByte(base, pool, n - 1)]
  }

  /** The state after credit for `c` bytes. */
  function Proven(c: nat, a: real): Sender
    requires a > 0.0
  {
    Sender(0, Estimate(PerLoop(c, a), 0.0), Some(a), c, PerLoop(c, a))
  }

  lemma ProvenNothing(a: real)
    requires a > 0.0
    ensures Proven(0, a) == NewSender(0.0).(srtt := Some(a))
  {
  }

  lemma DecayNone(d: Decay, e: Estimate, tau: real)
    requires Decays(d) && tau > 0.0
    ensures Value(d, e, e.at, tau) == e.rate
  {
    assert d(0.0, tau) == 1.0;
  }

  lemma CreditGoes(d: Decay, base: nat, limit: nat, pool: nat, c: nat, a: real)
    requires Decays(d) && a > 0.0
    ensures Goes(d, base, limit, pool, Proven(c, a).(unacked := 1), [Credited(1, 0.0)], Proven(c + 1, a), [])
  {
    hide Decays, PerLoop, Plan, Value, MayHave, Goes;
    var s := Proven(c, a).(unacked := 1);
    GoesOne(d, base, limit, pool, s, Credited(1, 0.0));
    DecayNone(d, s.est, a);
    PerLoopAdd(c, 1, a);
  }

  lemma {:induction false} RoundsGo(d: Decay, base: nat, limit: nat, pool: nat, c: nat, a: real)
    requires Decays(d) && a > 0.0 && base >= 1 && limit >= 1
    ensures Goes(d, base, limit, pool, Proven(0, a), Rounds(base, pool, c), Proven(c, a), [])
  {
    hide Decays, PerLoop, MayHave, Goes, SendByte;
    if c == 0 {
      GoesNowhere(d, base, limit, pool, Proven(0, a));
    } else {
      var (s, before) := (Proven(c - 1, a), Rounds(base, pool, c - 1));
      var (send, credit) := (SendByte(base, pool, 0), Credited(1, 0.0));
      RoundsGo(d, base, limit, pool, c - 1, a);
      ByteGoes(d, base, limit, pool, s);
      GoesOn(d, base, limit, pool, Proven(0, a), before, s, [], [send], s.(unacked := 1), []);
      CreditGoes(d, base, limit, pool, c - 1, a);
      GoesOn(d, base, limit, pool, Proven(0, a), before + [send], s.(unacked := 1), [], [credit], Proven(c, a), []);
    }
  }

  lemma {:induction false} BorrowingGoes(d: Decay, base: nat, limit: nat, pool: nat, s: Sender, n: nat)
    requires limit >= 1 && s.unacked == 0 && n <= base + MayHave(d, s, 0.0) && n <= base + pool
    ensures Goes(d, base, limit, pool, s, Borrowing(base, pool, n), s.(unacked := n), [])
  {
    hide Goes, Value, SendByte;
    if n == 0 {
      GoesNowhere(d, base, limit, pool, s);
    } else {
      var (s1, before) := (s.(unacked := n - 1), Borrowing(base, pool, n - 1));
      BorrowingGoes(d, base, limit, pool, s, n - 1);
      assert MayHave(d, s1, 0.0) == MayHave(d, s, 0.0);
      ByteGoes(d, base, limit, pool, s1);
      GoesOn(d, base, limit, pool, s, before, s1, [], [SendByte(base, pool, n - 1)], s.(unacked := n), []);
    }
  }

  /** The credit is enough for one byte too many. */
  lemma Overrated(d: Decay, a: real, b: real)
    requires Decays(d) && 0.0 < a < b
    ensures var c := Need(a, b); MayHave(d, Proven(c, a).(srtt := Some(b)), 0.0) >= 2 * c + 1
  {
    hide Decays, Times, PerLoop, Value, Need;
    var c := Need(a, b);
    var s := Proven(c, a).(srtt := Some(b));
    NeedExactly(a, b, c);
    DecayNone(d, s.est, b);
    TwiceAllowance(s.est.rate, b);
  }

  /** Samples up to `i`, just enough credit, samples up to `j`, one byte more than twice the credit, the other samples. */
  function GrowingRun(base: nat, pool: nat, samples: seq<real>, i: nat, j: nat): seq<Event>
    requires i < j < |samples| && 0.0 < samples[i] < samples[j]
  {
    var c := Need(samples[i], samples[j]);
    Samplings(samples[..i + 1]) + Rounds(base, pool, c) + Samplings(samples[i + 1..j + 1])
    + Borrowing(base, pool, base + 2 * c + 1) + Samplings(samples[j + 1..])
  }

  /** When the round trip time has grown, an old rate stands for more bytes than were credited. */
  lemma GrowthBreaksTheBound(d: Decay, base: nat, limit: nat, pool: nat, samples: seq<real>, i: nat, j: nat)
    requires Decays(d) && base >= 1 && limit >= 1 && Positive(samples)
    requires i < j < |samples| && samples[i] < samples[j] && pool > 2 * Need(samples[i], samples[j])
    ensures var run := GrowingRun(base, pool, samples, i, j);
            && SamplesOf(run) == samples && OnePool(d, base, limit, pool, NewSender(0.0), run)
            && !Twice(d, base, limit, 0.0, run)
  {
    hide Decays, PerLoop, MayHave, Need, Goes, Samplings, Rounds, Borrowing, Steps, OnePool, SamplesOf, Twice;
    var (a, b) := (samples[i], samples[j]);
    var c := Need(a, b);
    var (s0, s1, s2) := (NewSender(0.0), Proven(0, a), Proven(c, a));
    var (s3, s4) := (s2.(srtt := Some(b)), s2.(srtt := Some(b), unacked := base + 2 * c + 1));
    var s5 := if j + 1 == |samples| then s4 else s4.(srtt := Some(samples[|samples| - 1]));
    var (x1, x3, x5) := (samples[..i + 1], samples[i + 1..j + 1], samples[j + 1..]);
    var (e1, e2, e3) := (Samplings(x1), Rounds(base, pool, c), Samplings(x3));
    var (e4, e5) := (Borrowing(base, pool, base + 2 * c + 1), Samplings(x5));
    SamplingsGo(d, base, limit, pool, s0, x1);
    ProvenNothing(a);
    RoundsGo(d, base, limit, pool, c, a);
    GoesOn(d, base, limit, pool, s0, e1, s1, x1, e2, s2, []);
    SamplingsGo(d, base, limit, pool, s2, x3);
    GoesOn(d, base, limit, pool, s0, e1 + e2, s2, x1, e3, s3, x3);
    Overrated(d, a, b);
    BorrowingGoes(d, base, limit, pool, s3, base + 2 * c + 1);
    GoesOn(d, base, limit, pool, s0, e1 + e2 + e3, s3, x1 + x3, e4, s4, []);
    SamplingsGo(d, base, limit, pool, s4, x5);
    GoesOn(d, base, limit, pool, s0, e1 + e2 + e3 + e4, s4, x1 + x3, e5, s5, x5);
    assert x1 + x3 + x5 == samples;
    Breaks(d, base, limit, pool, e1 + e2 + e3 + e4 + e5, s5, samples, c);
  }

  lemma Breaks(d: Decay, base: nat, limit: nat, pool: nat, run: seq<Event>, s: Sender, samples: seq<real>, c: nat)
    requires Goes(d, base, limit, pool, NewSender(0.0), run, s, samples)
    requires s.credited == c && s.unacked == base + 2 * c + 1
    ensures SamplesOf(run) == samples && OnePool(d, base, limit, pool, NewSender(0.0), run) && !Twice(d, base, limit, 0.0, run)
  {
    hide Steps, SamplesOf, OnePool;
  }

  /**
   * For every base window, frame limit, pool and samples: a stream borrows at most twice the credit in every such run if
   * and only if, for every growth from one sample to a later one, twice the credit that it takes is at least the pool.
   */
  lemma TwiceExactlyWhenTame(d: Decay, base: nat, limit: nat, pool: nat, samples: seq<real>)
    requires Decays(d) && base >= 1 && limit >= 1 && Positive(samples)
    ensures AlwaysTwice(d, base, limit, pool, samples) <==> Tame(samples, pool)
  {
    hide Decays, Steps, OnePool, GrowingRun, Need, Bounded;
    if i, j :| 0 <= i < j < |samples| && samples[i] < samples[j] && pool > 2 * Need(samples[i], samples[j]) {
      GrowthBreaksTheBound(d, base, limit, pool, samples, i, j);
    } else {
      forall start: real, events: seq<Event>
        | SamplesOf(events) == samples && OnePool(d, base, limit, pool, NewSender(start), events)
        ensures Twice(d, base, limit, start, events)
      {
        TameBounded(d, base, limit, pool, start, events);
        BoundedTwice(Steps(d, base, limit, NewSender(start), events), samples, base);
      }
    }
  }

  lemma BoundedTwice(s: Sender, samples: seq<real>, base: nat)
    requires Positive(samples) && Bounded(s, samples, base)
    ensures Borrowed(s.unacked, base) <= 2 * s.credited
  {
  }

  /** Whatever the pool: it holds if and only if no sample is larger than an earlier one. */
  lemma TwiceExactlyWithoutGrowth(d: Decay, base: nat, limit: nat, samples: seq<real>)
    requires Decays(d) && base >= 1 && limit >= 1 && Positive(samples)
    ensures (forall pool: nat :: AlwaysTwice(d, base, limit, pool, samples)) <==> NeverGrows(samples)
  {
    hide Decays, AlwaysTwice, Need;
    forall pool: nat
      ensures AlwaysTwice(d, base, limit, pool, samples) <==> Tame(samples, pool)
    {
      TwiceExactlyWhenTame(d, base, limit, pool, samples);
    }
    if i, j :| 0 <= i < j < |samples| && samples[i] < samples[j] {
      assert !Tame(samples, 2 * Need(samples[i], samples[j]) + 1);
    }
  }

  /** With a pool of at most two bytes, it always holds. */
  lemma TinyPoolIsTame(samples: seq<real>, pool: nat)
    requires Positive(samples) && pool <= 2
    ensures Tame(samples, pool)
  {
  }
}
