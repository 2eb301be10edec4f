/** How fast a reader seems to be, over the reals, and how much that lets a stream borrow. */
module Rate {
  import opened Prelude
  import opened Flow
  import opened SharedFlow
  import opened Outbound

  function Times(a: real, b: real): real {
    a * b
  }

  /** Bytes as a rate. */
  function PerLoop(bytes: nat, tau: real): (r: real)
    requires tau > 0.0
    ensures r >= 0.0
  {
    bytes as real / tau
  }

  /** How much of a rate is left after some time, for a time constant. */
  type Decay = (real, real) -> real

  ghost predicate Decays(d: Decay) {
    && (forall tau: real | tau > 0.0 :: d(0.0, tau) == 1.0)
    && (forall age: real, tau: real | age >= 0.0 && tau > 0.0 :: 0.0 < d(age, tau) <= 1.0)
    && (forall a: real, b: real, tau: real | a >= 0.0 && b >= 0.0 && tau > 0.0 :: d(a + b, tau) == Times(d(a, tau), d(b, tau)))
  }

  lemma DecaySplit(d: Decay, a: real, b: real, tau: real)
    requires Decays(d) && a >= 0.0 && b >= 0.0 && tau > 0.0
    ensures d(a + b, tau) == Times(d(a, tau), d(b, tau))
  {
  }

  const ALLOWANCE_RTTS := 2.0

  datatype Estimate = Estimate(rate: real, at: real)

  function Age(e: Estimate, now: real): real {
    if now < e.at then 0.0 else now - e.at
  }

  function Value(d: Decay, e: Estimate, now: real, tau: real): real {
    Times(e.rate, d(Age(e, now), tau))
  }

  function Add(d: Decay, e: Estimate, bytes: nat, now: real, tau: real): Estimate
    requires tau > 0.0
  {
    Estimate(Value(d, e, now, tau) + PerLoop(bytes, tau), now)
  }

  function Allowance(d: Decay, e: Estimate, now: real, srtt: real): real {
    Times(Value(d, e, now, srtt), ALLOWANCE_RTTS * srtt)
  }

  class RateEstimate {
    var rate: real
    var at: real

    constructor (now: real)
      ensures State() == Estimate(0.0, now)
    {
      rate, at := 0.0, now;
    }

    function State(): Estimate
      reads this
    {
      Estimate(rate, at)
    }

    method Credit(d: Decay, bytes: nat, now: real, tau: real)
      requires tau > 0.0
      modifies this
      ensures State() == Add(d, old(State()), bytes, now, tau)
    {
      rate := Value(d, State(), now, tau) + PerLoop(bytes, tau);
      at := now;
    }
  }

  // The estimate is a weighted sum of all credit.

  /** Credit that was received, when, and the smoothed round trip time then. */
  datatype Got = Got(bytes: nat, at: real, tau: real)

  function Folded(d: Decay, start: real, gots: seq<Got>): Estimate
    requires forall g <- gots :: g.tau > 0.0
  {
    if gots == [] then Estimate(0.0, start)
    else
      var last := gots[|gots| - 1];
      Add(d, Folded(d, start, gots[..|gots| - 1]), last.bytes, last.at, last.tau)
  }

  /** Every credit counts, with a weight that decays with its age. */
  function Weighted(d: Decay, gots: seq<Got>, now: real, tau: real): real
    requires tau > 0.0
  {
    if gots == [] then 0.0
    else
      var last := gots[|gots| - 1];
      Weighted(d, gots[..|gots| - 1], now, tau) + Times(PerLoop(last.bytes, tau), d(now - last.at, tau))
  }

  ghost predicate InOrder(gots: seq<Got>, start: real, now: real, tau: real) {
    && start <= now
    && (forall i | 0 <= i < |gots| :: start <= gots[i].at <= now && gots[i].tau == tau)
    && (forall i, j | 0 <= i < j < |gots| :: gots[i].at <= gots[j].at)
  }

  lemma TimesOut(x: real, c: real, a: real, b: real)
    ensures Times(x + Times(c, a), b) == Times(x, b) + Times(c, Times(a, b))
    ensures Times(x + c, b) == Times(x, b) + Times(c, b)
    ensures Times(0.0, b) == 0.0 && Times(x, 1.0) == x
  {
  }

  /** The weights of all credit decay together. */
  lemma {:induction false} WeightedLater(d: Decay, gots: seq<Got>, start: real, mid: real, now: real, tau: real)
    requires Decays(d) && tau > 0.0 && InOrder(gots, start, mid, tau) && mid <= now
    ensures Weighted(d, gots, now, tau) == Times(Weighted(d, gots, mid, tau), d(now - mid, tau))
  {
    hide Times, PerLoop, Decays;
    TimesOut(0.0, 0.0, 0.0, d(now - mid, tau));
    if gots != [] {
      var n := |gots| - 1;
      WeightedLater(d, gots[..n], start, mid, now, tau);
      var g := gots[n];
      assert now - g.at == (mid - g.at) + (now - mid);
      DecaySplit(d, mid - g.at, now - mid, tau);
      TimesOut(Weighted(d, gots[..n], mid, tau), PerLoop(g.bytes, tau), d(mid - g.at, tau), d(now - mid, tau));
    }
  }

  /** With a constant round trip time, the incremental estimate is the weighted sum of all credit. */
  lemma {:induction false} EstimateIsWeighted(d: Decay, gots: seq<Got>, start: real, now: real, tau: real)
    requires Decays(d) && tau > 0.0 && InOrder(gots, start, now, tau)
    ensures Value(d, Folded(d, start, gots), now, tau) == Weighted(d, gots, now, tau)
  {
    hide Times, PerLoop, Decays;
    if gots == [] {
      TimesOut(0.0, 0.0, 0.0, d(now - start, tau));
    } else {
      var n := |gots| - 1;
      var (g, before) := (gots[n], gots[..n]);
      EstimateIsWeighted(d, before, start, g.at, tau);
      WeightedLater(d, before, start, g.at, now, tau);
      var w := Weighted(d, before, g.at, tau);
      assert Folded(d, start, gots) == Estimate(w + PerLoop(g.bytes, tau), g.at);
      TimesOut(w, PerLoop(g.bytes, tau), 1.0, d(now - g.at, tau));
    }
  }

  // Runs of one sender.

  /**
   * `credited` and `rates` are history: the credit received since the round trip time is known, and the sum of what
   * each of these credits was as a rate when it came.
   */
  datatype Sender = Sender(unacked: nat, est: Estimate, srtt: Option<real>, credited: nat, rates: real)

  /** The rest of the connection does what it wants: it samples round trips, and changes what the streams share. */
  datatype Event =
    | Sampled(srtt: real)
    | Credited(credit: nat, now: real)
    | Polled(me: Ref, waiting: nat, sh: Shared, now: real)

  /** Whole bytes that the stream may have borrowed. */
  function MayHave(d: Decay, s: Sender, now: real): nat {
    if s.srtt.None? then 0
    else
      var a := Allowance(d, s.est, now, s.srtt.value);
      if a <= 0.0 then 0 else a.Floor
  }

  function Step(d: Decay, base: nat, limit: nat, s: Sender, ev: Event): Sender {
    match ev
    case Sampled(srtt) => if srtt > 0.0 then s.(srtt := Some(srtt)) else s
    case Credited(credit, now) =>
      if credit > s.unacked then s
      else if s.srtt.None? || s.srtt.value <= 0.0 then s.(unacked := s.unacked - credit)
      else Sender(s.unacked - credit, Add(d, s.est, credit, now, s.srtt.value), s.srtt, s.credited + credit,
                  s.rates + PerLoop(credit, s.srtt.value))
    case Polled(me, waiting, sh, now) =>
      s.(unacked := Plan(me, waiting, s.unacked, sh, base, limit, MayHave(d, s, now)).unacked)
  }

  function Steps(d: Decay, base: nat, limit: nat, s: Sender, events: seq<Event>): Sender {
    if events == [] then s
    else Step(d, base, limit, Steps(d, base, limit, s, events[..|events| - 1]), events[|events| - 1])
  }

  function NewSender(start: real): Sender {
    Sender(0, Estimate(0.0, start), None, 0, 0.0)
  }

  /** What a stream borrows is within its allowance, unless it had borrowed more before. */
  lemma PlanBorrows(me: Ref, waiting: nat, unacked: nat, sh: Shared, base: nat, limit: nat, allowance: nat)
    ensures var p := Plan(me, waiting, unacked, sh, base, limit, allowance);
            Borrowed(p.unacked, base) <= Borrowed(unacked, base) || Borrowed(p.unacked, base) <= allowance
  {
    hide PassTurn, TakesTurn, Sends;
  }

  ghost predicate Unproven(s: Sender, base: nat) {
    s.credited == 0 ==> s.est.rate == 0.0 && s.unacked <= base
  }

  lemma NothingFromNothing(d: Decay, s: Sender, now: real)
    requires s.est.rate == 0.0
    ensures MayHave(d, s, now) == 0 && forall tau: real :: Value(d, s.est, now, tau) == 0.0
  {
  }

  /** A stream whose reader has proven nothing stays within its base window, whatever the connection does. */
  lemma {:induction false} UnprovenStaysWithin(d: Decay, base: nat, limit: nat, start: real, events: seq<Event>)
    ensures Unproven(Steps(d, base, limit, NewSender(start), events), base)
  {
    hide Plan, Allowance, Value;
    if events != [] {
      var n := |events| - 1;
      UnprovenStaysWithin(d, base, limit, start, events[..n]);
      var (s, ev) := (Steps(d, base, limit, NewSender(start), events[..n]), events[n]);
      if s.credited == 0 {
        match ev
        case Sampled(_) =>
        case Credited(credit, now) => NothingFromNothing(d, s, now);
        case Polled(me, waiting, sh, now) =>
          NothingFromNothing(d, s, now);
          PlanBorrows(me, waiting, s.unacked, sh, base, limit, 0);
      }
    }
  }

  /** The samples that count: a round trip time is positive. */
  function SamplesOf(events: seq<Event>): seq<real> {
    if events == [] then []
    else
      var rest := SamplesOf(events[..|events| - 1]);
      var last := events[|events| - 1];
      if last.Sampled? && last.srtt > 0.0 then rest + [last.srtt] else rest
  }

  /** No sample is larger than an earlier one. */
  ghost predicate NeverGrows(samples: seq<real>) {
    forall i, j | 0 <= i < j < |samples| :: samples[j] <= samples[i]
  }

  ghost predicate Covered(s: Sender, base: nat) {
    && s.est.rate >= 0.0
    && (s.srtt.None? ==> s.est.rate == 0.0)
    && (s.srtt.Some? ==> s.srtt.value > 0.0 && Times(s.est.rate, s.srtt.value) <= s.credited as real)
    && Borrowed(s.unacked, base) <= 2 * s.credited
  }

  lemma {:induction false} SrttIsLast(d: Decay, base: nat, limit: nat, start: real, events: seq<Event>)
    ensures var (s, samples) := (Steps(d, base, limit, NewSender(start), events), SamplesOf(events));
            s.srtt == if samples == [] then None else Some(samples[|samples| - 1])
  {
    hide Plan, MayHave, Add;
    if events != [] {
      SrttIsLast(d, base, limit, start, events[..|events| - 1]);
    }
  }

  lemma DecayLeaves(d: Decay, s: Estimate, now: real, tau: real)
    requires Decays(d) && s.rate >= 0.0 && tau > 0.0
    ensures 0.0 <= Value(d, s, now, tau) <= s.rate
  {
    var left := d(Age(s, now), tau);
    assert 0.0 < left <= 1.0;
    assert s.rate * left <= s.rate * 1.0;
  }

  lemma TimesGrows(a: real, b: real, c: real)
    requires 0.0 <= a <= b && c >= 0.0
    ensures 0.0 <= Times(a, c) <= Times(b, c) && Times(c, a) == Times(a, c)
  {
  }

  lemma PerLoopBack(bytes: nat, x: real, tau: real)
    requires tau > 0.0
    ensures Times(x + PerLoop(bytes, tau), tau) == Times(x, tau) + bytes as real
  {
  }

  lemma TwiceAllowance(x: real, tau: real)
    ensures Times(x, ALLOWANCE_RTTS * tau) == 2.0 * Times(x, tau)
  {
  }

  lemma AllowanceCovered(d: Decay, s: Sender, base: nat, now: real)
    requires Decays(d) && Covered(s, base)
    ensures MayHave(d, s, now) <= 2 * s.credited
  {
    hide Decays, Value, Times;
    if s.srtt.Some? {
      var tau := s.srtt.value;
      DecayLeaves(d, s.est, now, tau);
      TimesGrows(Value(d, s.est, now, tau), s.est.rate, tau);
      TwiceAllowance(Value(d, s.est, now, tau), tau);
    }
  }

  lemma StepCovered(d: Decay, base: nat, limit: nat, s: Sender, ev: Event)
    requires Decays(d) && Covered(s, base)
    requires ev.Sampled? && ev.srtt > 0.0 && s.srtt.Some? ==> ev.srtt <= s.srtt.value
    ensures Covered(Step(d, base, limit, s, ev), base)
  {
    hide Decays, Plan, Times, Value, PerLoop, MayHave;
    match ev
    case Sampled(srtt) =>
      TimesOut(0.0, 0.0, 0.0, srtt);
      if srtt > 0.0 && s.srtt.Some? {
        TimesGrows(srtt, s.srtt.value, s.est.rate);
        TimesGrows(s.srtt.value, s.srtt.value, s.est.rate);
      }
    case Credited(credit, now) =>
      if credit <= s.unacked && s.srtt.Some? {
        var tau := s.srtt.value;
        DecayLeaves(d, s.est, now, tau);
        PerLoopBack(credit, Value(d, s.est, now, tau), tau);
        TimesGrows(Value(d, s.est, now, tau), s.est.rate, tau);
      }
    case Polled(me, waiting, sh, now) =>
      AllowanceCovered(d, s, base, now);
      PlanBorrows(me, waiting, s.unacked, sh, base, limit, MayHave(d, s, now));
  }

  /** While the round trip time does not grow, a stream never borrows more than twice the credit it received. */
  lemma {:induction false} BorrowsAtMostTwice(d: Decay, base: nat, limit: nat, start: real, events: seq<Event>)
    requires Decays(d) && NeverGrows(SamplesOf(events))
    ensures Covered(Steps(d, base, limit, NewSender(start), events), base)
  {
    hide Decays, Step, Times;
    TimesOut(0.0, 0.0, 0.0, 0.0);
    if events != [] {
      var n := |events| - 1;
      var (before, after) := (SamplesOf(events[..n]), SamplesOf(events));
      assert before <= after;
      assert |before| < |after| && before != [] ==> after[|before|] <= after[|before| - 1];
      BorrowsAtMostTwice(d, base, limit, start, events[..n]);
      SrttIsLast(d, base, limit, start, events[..n]);
      StepCovered(d, base, limit, Steps(d, base, limit, NewSender(start), events[..n]), events[n]);
    }
  }

  ghost predicate RateBelow(s: Sender) {
    0.0 <= s.est.rate <= s.rates && (s.srtt.Some? ==> s.srtt.value > 0.0)
  }

  lemma {:induction false} RateStaysBelow(d: Decay, base: nat, limit: nat, start: real, events: seq<Event>)
    requires Decays(d)
    ensures RateBelow(Steps(d, base, limit, NewSender(start), events))
  {
    hide Decays, Plan, Value, PerLoop, MayHave;
    if events != [] {
      var n := |events| - 1;
      RateStaysBelow(d, base, limit, start, events[..n]);
      var (s, ev) := (Steps(d, base, limit, NewSender(start), events[..n]), events[n]);
      if ev.Credited? && s.srtt.Some? {
        DecayLeaves(d, s.est, ev.now, s.srtt.value);
      }
    }
  }

  /**
   * In every run, the allowance is at most twice the credit received, each rescaled by how the round trip time has
   * changed since, and a poll borrows beyond what was borrowed before only within the allowance.
   */
  lemma AllowanceRescales(d: Decay, base: nat, limit: nat, start: real, events: seq<Event>, me: Ref, waiting: nat, sh: Shared, now: real)
    requires Decays(d)
    ensures var s := Steps(d, base, limit, NewSender(start), events);
            var s' := Step(d, base, limit, s, Polled(me, waiting, sh, now));
            && (s.srtt.Some? ==> MayHave(d, s, now) as real <= 2.0 * Times(s.rates, s.srtt.value))
            && (s.srtt.None? ==> MayHave(d, s, now) == 0)
            && (Borrowed(s'.unacked, base) <= Borrowed(s.unacked, base) || Borrowed(s'.unacked, base) <= MayHave(d, s, now))
  {
    hide Decays, Plan, Value, Times, Steps;
    RateStaysBelow(d, base, limit, start, events);
    var s := Steps(d, base, limit, NewSender(start), events);
    PlanBorrows(me, waiting, s.unacked, sh, base, limit, MayHave(d, s, now));
    if s.srtt.Some? {
      var tau := s.srtt.value;
      DecayLeaves(d, s.est, now, tau);
      TimesGrows(Value(d, s.est, now, tau), s.rates, tau);
      TwiceAllowance(Value(d, s.est, now, tau), tau);
    }
  }
}
