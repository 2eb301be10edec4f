/** The names of the streams do not matter: an endpoint whose references are renamed does the same under the new names. */
module Renaming {
  import opened Prelude
  import opened Fins
  import opened Flow
  import opened TurnQueue
  import opened SharedFlow
  import opened StreamId
  import opened Endpoint
  import Outbound
  import Inbound

  /** New names for references. */
  type Naming = map<Ref, Ref>

  ghost predicate Injective(names: Naming) {
    forall j, k | j in names && k in names :: names[j] == names[k] ==> j == k
  }

  ghost predicate QueueSame(names: Naming, q: seq<Ref>, q': seq<Ref>) {
    |q| == |q'| && forall i | 0 <= i < |q| :: q[i] in names && q'[i] == names[q[i]]
  }

  ghost predicate SetSame(names: Naming, a: set<Ref>, a': set<Ref>) {
    a <= names.Keys && a' <= names.Values && forall k | k in names :: k in a <==> names[k] in a'
  }

  ghost predicate SharedSame(names: Naming, sh: Shared, sh': Shared) {
    && sh'.rxSize == sh.rxSize && sh'.rxUsed == sh.rxUsed && sh'.txSize == sh.txSize && sh'.txUsed == sh.txUsed
    && QueueSame(names, sh.queue, sh'.queue) && SetSame(names, sh.awake, sh'.awake)
  }

  // The queue.

  lemma QueueHas(names: Naming, q: seq<Ref>, q': seq<Ref>, k: Ref)
    requires Injective(names) && QueueSame(names, q, q') && k in names
    ensures k in q <==> names[k] in q'
    ensures HasTurn(q, k) <==> HasTurn(q', names[k])
  {
    if k in q {
      var i :| 0 <= i < |q| && q[i] == k;
      assert q'[i] == names[k];
    }
    if names[k] in q' {
      var i :| 0 <= i < |q'| && q'[i] == names[k];
      assert q[i] == k;
    }
  }

  lemma QueueCons(names: Naming, k: Ref, q: seq<Ref>, q': seq<Ref>)
    requires k in names && QueueSame(names, q, q')
    ensures QueueSame(names, [k] + q, [names[k]] + q')
  {
  }

  lemma {:induction false} LeaveSame(names: Naming, q: seq<Ref>, q': seq<Ref>, k: Ref)
    requires Injective(names) && QueueSame(names, q, q') && k in names
    ensures QueueSame(names, Leave(q, k), Leave(q', names[k]))
    decreases |q|
  {
    if q != [] {
      assert q'[0] == names[k] <==> q[0] == k;
      if q[0] != k {
        LeaveSame(names, q[1..], q'[1..], k);
        QueueCons(names, q[0], Leave(q[1..], k), Leave(q'[1..], names[k]));
      }
    }
  }

  lemma JoinSame(names: Naming, q: seq<Ref>, q': seq<Ref>, k: Ref)
    requires Injective(names) && QueueSame(names, q, q') && k in names
    ensures QueueSame(names, Join(q, k), Join(q', names[k]))
  {
    QueueHas(names, q, q', k);
  }

  // What the streams share.

  lemma WakeSame(names: Naming, sh: Shared, sh': Shared, k: Ref)
    requires Injective(names) && SharedSame(names, sh, sh') && k in names
    ensures SharedSame(names, Wake(sh, k), Wake(sh', names[k]))
  {
  }

  lemma SleepSame(names: Naming, sh: Shared, sh': Shared, k: Ref)
    requires Injective(names) && SharedSame(names, sh, sh') && k in names
    ensures SharedSame(names, sh.(awake := sh.awake - {k}), sh'.(awake := sh'.awake - {names[k]}))
  {
  }

  lemma WakeFrontSame(names: Naming, sh: Shared, sh': Shared)
    requires Injective(names) && SharedSame(names, sh, sh')
    ensures SharedSame(names, WakeFront(sh), WakeFront(sh'))
  {
    if sh.queue != [] {
      WakeSame(names, sh, sh', sh.queue[0]);
    }
  }

  lemma PassTurnSame(names: Naming, sh: Shared, sh': Shared, k: Ref)
    requires Injective(names) && SharedSame(names, sh, sh') && k in names
    ensures SharedSame(names, PassTurn(sh, k), PassTurn(sh', names[k]))
  {
    hide SetSame;
    QueueHas(names, sh.queue, sh'.queue, k);
    LeaveSame(names, sh.queue, sh'.queue, k);
    WakeFrontSame(names, sh.(queue := Leave(sh.queue, k)), sh'.(queue := Leave(sh'.queue, names[k])));
  }

  lemma TakesTurnSame(names: Naming, sh: Shared, sh': Shared, k: Ref, more: bool)
    requires Injective(names) && SharedSame(names, sh, sh') && k in names
    ensures SharedSame(names, Outbound.TakesTurn(sh, k, more), Outbound.TakesTurn(sh', names[k], more))
  {
    hide SetSame, QueueSame;
    LeaveSame(names, sh.queue, sh'.queue, k);
    var (left, left') := (Leave(sh.queue, k), Leave(sh'.queue, names[k]));
    JoinSame(names, left, left', k);
    WakeFrontSame(names, sh.(queue := if more then Join(left, k) else left), sh'.(queue := if more then Join(left', names[k]) else left'));
  }

  lemma PlanSame(names: Naming, sh: Shared, sh': Shared, k: Ref, waiting: nat, unacked: nat, base: nat, limit: nat, allowance: nat)
    requires Injective(names) && SharedSame(names, sh, sh') && k in names
    ensures var p := Outbound.Plan(k, waiting, unacked, sh, base, limit, allowance);
            var p' := Outbound.Plan(names[k], waiting, unacked, sh', base, limit, allowance);
            p'.n == p.n && p'.unacked == p.unacked && SharedSame(names, p.sh, p'.sh)
  {
    hide SetSame, QueueSame, Outbound.TakesTurn, PassTurn, Join, Leave;
    QueueHas(names, sh.queue, sh'.queue, k);
    PassTurnSame(names, sh, sh', k);
    JoinSame(names, sh.queue, sh'.queue, k);
    var n := Outbound.Plan(k, waiting, unacked, sh, base, limit, allowance).n;
    var (sent, sent') := (Outbound.Sends(sh, unacked, base, n), Outbound.Sends(sh', unacked, base, n));
    TakesTurnSame(names, sent, sent', k, waiting > n);
  }

  lemma PollOutSame(names: Naming, sh: Shared, sh': Shared, k: Ref, o: Outbound.Out, base: nat, limit: nat, allowance: nat)
    requires Injective(names) && SharedSame(names, sh, sh') && k in names
    ensures var p := Outbound.PollOut(k, o, sh, base, limit, allowance);
            var p' := Outbound.PollOut(names[k], o, sh', base, limit, allowance);
            p'.o == p.o && p'.sent == p.sent && SharedSame(names, p.sh, p'.sh)
  {
    hide SharedSame, Outbound.Plan, PassTurn;
    PassTurnSame(names, sh, sh', k);
    if !o.state.Closed? {
      PlanSame(names, sh, sh', k, |o.state.ready|, o.unacked, base, limit, allowance);
    }
  }

  lemma PollInSame(names: Naming, sh: Shared, sh': Shared, i: Inbound.In, base: nat, threshold: nat)
    requires SharedSame(names, sh, sh')
    ensures var (p, p') := (Inbound.PollIn(i, sh, base, threshold), Inbound.PollIn(i, sh', base, threshold));
            p'.i == p.i && p'.sent == p.sent && SharedSame(names, p.sh, p'.sh)
  {
    hide SetSame, QueueSame;
  }

  // A frame for one stream.

  ghost predicate ArrivalSame(names: Naming, r: Arrival, r': Arrival) {
    match r
    case Err(e) => r' == Err(e)
    case Ok((s, sh)) => r'.Ok? && r'.value.0 == s && SharedSame(names, sh, r'.value.1)
  }

  lemma SetUnackedSame(names: Naming, sh: Shared, sh': Shared, o: Outbound.Out, base: nat, unacked: nat)
    requires Injective(names) && SharedSame(names, sh, sh')
    ensures SharedSame(names, Outbound.SetUnacked(o, sh, base, unacked), Outbound.SetUnacked(o, sh', base, unacked))
  {
    hide SetSame, QueueSame, WakeFront;
    var (before, after) := (Borrowed(o.unacked, base), Borrowed(unacked, base));
    WakeFrontSame(names, sh.(txUsed := Moved(sh.txUsed, before, after)), sh'.(txUsed := Moved(sh'.txUsed, before, after)));
  }

  lemma WindowSame(names: Naming, sh: Shared, sh': Shared, cfg: Config, k: Ref, s: Stream, part: Part)
    requires Injective(names) && SharedSame(names, sh, sh') && k in names
    ensures ArrivalSame(names, ArriveWindow(cfg, k, s, sh, part), ArriveWindow(cfg, names[k], s, sh', part))
  {
    hide SharedSame, Outbound.SetUnacked;
    if part.credit <= s.out.unacked {
      var unacked := s.out.unacked - part.credit;
      SetUnackedSame(names, sh, sh', s.out, cfg.remoteWindow, unacked);
      WakeSame(names, Outbound.SetUnacked(s.out, sh, cfg.remoteWindow, unacked), Outbound.SetUnacked(s.out, sh', cfg.remoteWindow, unacked), k);
    }
  }

  lemma DataSame(names: Naming, sh: Shared, sh': Shared, cfg: Config, s: Stream, part: Part)
    requires SharedSame(names, sh, sh')
    ensures ArrivalSame(names, ArriveData(cfg, s, sh, part), ArriveData(cfg, s, sh', part))
  {
    hide SetSame, QueueSame;
  }

  lemma FinWriteSame(names: Naming, sh: Shared, sh': Shared, k: Ref, s: Stream, part: Part)
    requires Injective(names) && SharedSame(names, sh, sh') && k in names
    ensures ArrivalSame(names, ArriveFinWrite(k, s, sh, part), ArriveFinWrite(names[k], s, sh', part))
  {
    hide SharedSame, Wake, Inbound.ReceivedFinWrite;
    WakeSame(names, sh, sh', k);
  }

  lemma FinReadSame(names: Naming, sh: Shared, sh': Shared, cfg: Config, k: Ref, s: Stream, part: Part)
    requires Injective(names) && SharedSame(names, sh, sh') && k in names
    ensures ArrivalSame(names, ArriveFinRead(cfg, k, s, sh, part), ArriveFinRead(cfg, names[k], s, sh', part))
  {
    hide SharedSame, Wake, Outbound.SetUnacked;
    WakeSame(names, sh, sh', k);
    SetUnackedSame(names, sh, sh', s.out, cfg.remoteWindow, 0);
    SetUnackedSame(names, Wake(sh, k), Wake(sh', names[k]), s.out, cfg.remoteWindow, 0);
  }

  lemma ReceivedSame(names: Naming, sh: Shared, sh': Shared, cfg: Config, k: Ref, s: Stream, part: Part)
    requires Injective(names) && SharedSame(names, sh, sh') && k in names
    ensures ArrivalSame(names, Received(cfg, k, s, sh, part), Received(cfg, names[k], s, sh', part))
  {
    hide SharedSame, ArriveWindow, ArriveData, ArriveFinWrite, ArriveFinRead;
    WindowSame(names, sh, sh', cfg, k, s, part);
    var (r1, r1') := (ArriveWindow(cfg, k, s, sh, part), ArriveWindow(cfg, names[k], s, sh', part));
    if r1.Ok? {
      var (s1, sh1, sh1') := (r1.value.0, r1.value.1, r1'.value.1);
      DataSame(names, sh1, sh1', cfg, s1, part);
      var (r2, r2') := (ArriveData(cfg, s1, sh1, part), ArriveData(cfg, s1, sh1', part));
      if r2.Ok? {
        var (s2, sh2, sh2') := (r2.value.0, r2.value.1, r2'.value.1);
        FinWriteSame(names, sh2, sh2', k, s2, part);
        var (r3, r3') := (ArriveFinWrite(k, s2, sh2, part), ArriveFinWrite(names[k], s2, sh2', part));
        if r3.Ok? {
          FinReadSame(names, r3.value.1, r3'.value.1, cfg, k, r3.value.0, part);
        }
      }
    }
  }

  // Endpoints.

  ghost predicate TableSame<K(!new)>(names: Naming, t: map<K, Ref>, t': map<K, Ref>) {
    t.Keys == t'.Keys && forall x | x in t :: t[x] in names && t'[x] == names[t[x]]
  }

  ghost predicate StreamsSame(names: Naming, t: map<Ref, Stream>, t': map<Ref, Stream>) {
    t.Keys == names.Keys && t'.Keys == names.Values && forall k | k in names :: t'[names[k]] == t[k]
  }

  /** The second endpoint is the first one under other names. */
  ghost predicate Same(names: Naming, e: Endpoint, e': Endpoint) {
    && Injective(names)
    && e'.role == e.role && e'.cfg == e.cfg && e'.slots == e.slots
    && TableSame(names, e.outbound, e'.outbound) && TableSame(names, e.inbound, e'.inbound)
    && StreamsSame(names, e.streams, e'.streams)
    && SetSame(names, e.tasks, e'.tasks) && SharedSame(names, e.sh, e'.sh)
  }

  lemma LookupSame(names: Naming, e: Endpoint, e': Endpoint, id: Id)
    requires Same(names, e, e')
    ensures match Lookup(e, id)
            case None => Lookup(e', id).None?
            case Some(k) => k in names && Lookup(e', id) == Some(names[k])
  {
    hide SetSame, SharedSame, StreamsSame, Injective;
  }

  lemma StreamsUpdate(names: Naming, t: map<Ref, Stream>, t': map<Ref, Stream>, k: Ref, s: Stream)
    requires Injective(names) && StreamsSame(names, t, t') && k in names
    ensures StreamsSame(names, t[k := s], t'[names[k] := s])
  {
  }

  lemma UpdatedSame(names: Naming, e: Endpoint, e': Endpoint, k: Ref, s: Stream, sh: Shared, sh': Shared)
    requires Same(names, e, e') && k in names && SharedSame(names, sh, sh')
    ensures Same(names, Updated(e, k, s, sh), Updated(e', names[k], s, sh'))
  {
    hide SetSame, SharedSame, StreamsSame, Injective, TableSame;
    StreamsUpdate(names, e.streams, e'.streams, k, s);
  }

  lemma ForgetSame(names: Naming, e: Endpoint, e': Endpoint, id: Id)
    requires Same(names, e, e')
    ensures Same(names, Forget(e, id), Forget(e', id))
  {
    hide SetSame, SharedSame, StreamsSame, Injective;
  }

  lemma CallSame(names: Naming, e: Endpoint, e': Endpoint, k: Ref, call: AppCall)
    requires Same(names, e, e') && k in names
    ensures k in e.streams && names[k] in e'.streams && Same(names, Call(e, k, call), Call(e', names[k], call))
  {
    hide SetSame, SharedSame, TableSame, Called, CallWakes, Wake;
    WakeSame(names, e.sh, e'.sh, k);
    var s := e.streams[k];
    var wakes := CallWakes(s, call, Threshold(e));
    UpdatedSame(names, e, e', k, Called(s, call), if wakes then Wake(e.sh, k) else e.sh, if wakes then Wake(e'.sh, names[k]) else e'.sh);
  }

  // Polling.

  lemma TasksLess(names: Naming, a: set<Ref>, a': set<Ref>, k: Ref)
    requires Injective(names) && SetSame(names, a, a') && k in names
    ensures SetSame(names, a - {k}, a' - {names[k]})
  {
  }

  lemma YieldedSame(names: Naming, e: Endpoint, e': Endpoint, k: Ref, s: Stream, sh: Shared, sh': Shared)
    requires Same(names, e, e') && k in names && SharedSame(names, sh, sh')
    ensures Same(names, Yielded(e, k, s, sh), Yielded(e', names[k], s, sh'))
  {
    hide SetSame, SharedSame, TableSame, StreamsSame, Injective, PassTurn, Wake, Forget, Dead, StreamFin;
    WakeSame(names, sh, sh', k);
    PassTurnSame(names, sh, sh', k);
    UpdatedSame(names, e, e', k, s, Wake(sh, k), Wake(sh', names[k]));
    var (passed, passed') := (PassTurn(sh, k), PassTurn(sh', names[k]));
    SleepSame(names, passed, passed', k);
    var (quiet, quiet') := (passed.(awake := passed.awake - {k}), passed'.(awake := passed'.awake - {names[k]}));
    UpdatedSame(names, e, e', k, s, quiet, quiet');
    TasksLess(names, e.tasks, e'.tasks, k);
    ForgetSame(names, Updated(e, k, s, quiet).(tasks := e.tasks - {k}), Updated(e', names[k], s, quiet').(tasks := e'.tasks - {names[k]}), s.id);
  }

  ghost predicate PartSame(part: Option<Part>, part': Option<Part>) {
    match part
    case None => part'.None?
    case Some(p) => part'.Some? && part'.value.(tag := 0) == p.(tag := 0)
  }

  lemma PollSame(names: Naming, e: Endpoint, e': Endpoint, k: Ref, allowance: nat)
    requires Same(names, e, e') && k in names
    ensures k in e.streams && names[k] in e'.streams
    ensures var ((e1, part), (e1', part')) := (Poll(e, k, allowance), Poll(e', names[k], allowance));
            Same(names, e1, e1') && PartSame(part, part')
  {
    hide SharedSame, SetSame, TableSame, Inbound.PollIn, Outbound.PollOut, Yielded, Updated;
    var s := e.streams[k];
    SleepSame(names, e.sh, e'.sh, k);
    var (sh, sh') := (e.sh.(awake := e.sh.awake - {k}), e'.sh.(awake := e'.sh.awake - {names[k]}));
    PollInSame(names, sh, sh', s.inn, e.cfg.localWindow, Threshold(e));
    var (ip, ip') := (Inbound.PollIn(s.inn, sh, e.cfg.localWindow, Threshold(e)), Inbound.PollIn(s.inn, sh', e.cfg.localWindow, Threshold(e)));
    PollOutSame(names, ip.sh, ip'.sh, k, s.out, e.cfg.remoteWindow, e.cfg.frameLimit, allowance);
    var op := Outbound.PollOut(k, s.out, ip.sh, e.cfg.remoteWindow, e.cfg.frameLimit, allowance);
    var op' := Outbound.PollOut(names[k], s.out, ip'.sh, e.cfg.remoteWindow, e.cfg.frameLimit, allowance);
    var after := s.(out := op.o, inn := ip.i);
    UpdatedSame(names, e, e', k, after, op.sh, op'.sh);
    YieldedSame(names, e, e', k, after.(syn := false), op.sh, op'.sh);
  }

  // New streams.

  lemma SharedMore(names: Naming, sh: Shared, sh': Shared, k: Ref, k': Ref)
    requires SharedSame(names, sh, sh') && k !in names && k' !in names.Values
    ensures SharedSame(names[k := k'], sh, sh')
  {
    assert names[k := k'].Values == names.Values + {k'} by {
      ValuesMore(names, k, k');
    }
  }

  lemma ValuesMore(names: Naming, k: Ref, k': Ref)
    requires k !in names
    ensures names[k := k'].Values == names.Values + {k'}
  {
    assert forall j | j in names :: j in names[k := k'] && names[k := k'][j] == names[j];
    assert k in names[k := k'];
  }

  lemma InjectiveMore(names: Naming, k: Ref, k': Ref)
    requires Injective(names) && k !in names && k' !in names.Values
    ensures Injective(names[k := k'])
  {
    assert forall j | j in names :: names[j] in names.Values;
  }

  lemma TableMore<K(!new)>(names: Naming, t: map<K, Ref>, t': map<K, Ref>, k: Ref, k': Ref)
    requires TableSame(names, t, t') && k !in names
    ensures TableSame(names[k := k'], t, t')
  {
  }

  lemma TasksMore(names: Naming, a: set<Ref>, a': set<Ref>, k: Ref, k': Ref)
    requires SetSame(names, a, a') && k !in names && k' !in names.Values
    ensures SetSame(names[k := k'], a + {k}, a' + {k'})
  {
    ValuesMore(names, k, k');
    assert forall j | j in names :: names[j] in names.Values;
  }

  lemma StreamsMore(names: Naming, t: map<Ref, Stream>, t': map<Ref, Stream>, k: Ref, k': Ref, s: Stream)
    requires StreamsSame(names, t, t') && k !in names && k' !in names.Values
    ensures StreamsSame(names[k := k'], t[k := s], t'[k' := s])
  {
    ValuesMore(names, k, k');
    assert forall j | j in names :: names[j] in names.Values;
  }

  lemma CreatedSame(names: Naming, e: Endpoint, e': Endpoint, k: Ref, k': Ref, s: Stream)
    requires Same(names, e, e') && k !in names && k' !in names.Values
    ensures Same(names[k := k'], Created(e, k, s), Created(e', k', s))
  {
    hide SharedSame, Wake, SetSame, StreamsSame, TableSame, Injective;
    InjectiveMore(names, k, k');
    TableMore(names, e.outbound, e'.outbound, k, k');
    TableMore(names, e.inbound, e'.inbound, k, k');
    TasksMore(names, e.tasks, e'.tasks, k, k');
    StreamsMore(names, e.streams, e'.streams, k, k', s);
    SharedMore(names, e.sh, e'.sh, k, k');
    WakeSame(names[k := k'], e.sh, e'.sh, k);
  }

  lemma TableUpdate<K(!new)>(names: Naming, t: map<K, Ref>, t': map<K, Ref>, x: K, k: Ref)
    requires TableSame(names, t, t') && k in names
    ensures TableSame(names, t[x := k], t'[x := names[k]])
  {
  }

  lemma SameSize<K(!new)>(names: Naming, t: map<K, Ref>, t': map<K, Ref>)
    requires TableSame(names, t, t')
    ensures |t| == |t'|
  {
    assert |t| == |t.Keys| && |t'| == |t'.Keys|;
  }

  lemma VacantSame(names: Naming, e: Endpoint, e': Endpoint, key: nat)
    requires Same(names, e, e')
    ensures IsVacantKey(e, key) <==> IsVacantKey(e', key)
  {
    SameSize(names, e.outbound, e'.outbound);
  }

  lemma OpenSame(names: Naming, e: Endpoint, e': Endpoint, key: nat, k: Ref, k': Ref)
    requires Same(names, e, e') && k !in names && k' !in names.Values
    ensures var (r, r') := (OpenOutbound(e, key, k), OpenOutbound(e', key, k'));
            match r
            case None => r'.None?
            case Some((e1, id)) => r'.Some? && r'.value.1 == id && Same(names[k := k'], e1, r'.value.0)
  {
    hide SharedSame, SetSame, StreamsSame, TableSame, Injective, Wake;
    SameSize(names, e.outbound, e'.outbound);
    var r := OpenOutbound(e, key, k);
    if r.Some? {
      CreatedSame(names, e, e', k, k', NewStream(r.value.1, true));
      TableMore(names, e.outbound, e'.outbound, k, k');
      TableUpdate(names[k := k'], e.outbound, e'.outbound, key, k);
    }
  }

  // Receiving.

  ghost predicate OutcomeSame(names: Naming, r: Result<Endpoint, Violation>, r': Result<Endpoint, Violation>) {
    match r
    case Err(v) => r' == Err(v)
    case Ok(e) => r'.Ok? && Same(names, e, r'.value)
  }

  lemma HandledSame(names: Naming, e: Endpoint, e': Endpoint, k: Ref, part: Part, part': Part)
    requires Same(names, e, e') && k in names && part'.(tag := 0) == part.(tag := 0)
    ensures OutcomeSame(names, Handled(e, k, part), Handled(e', names[k], part'))
  {
    hide SharedSame, SetSame, TableSame, StreamsSame, Injective, Received, Forget, Dead;
    AtSame(names, e, e', k, part.id);
    var s := e.streams[k];
    assert part' == part.(tag := part'.tag);
    TagUnused(e'.cfg, names[k], s, e'.sh, part, part'.tag);
    ReceivedSame(names, e.sh, e'.sh, e.cfg, k, s, part);
    var (r, r') := (Received(e.cfg, k, s, e.sh, part), Received(e'.cfg, names[k], s, e'.sh, part'));
    if r.Ok? {
      UpdatedSame(names, e, e', k, r.value.0, r.value.1, r'.value.1);
      ForgetSame(names, Updated(e, k, r.value.0, r.value.1), Updated(e', names[k], r.value.0, r'.value.1), part.id);
    }
  }

  lemma AtSame(names: Naming, e: Endpoint, e': Endpoint, k: Ref, id: Id)
    requires Same(names, e, e') && k in names
    ensures k in e.streams && At(e, k, id) == e.streams[k] == At(e', names[k], id)
  {
    hide SharedSame, SetSame, TableSame, Injective;
  }

  lemma TagUnused(cfg: Config, k: Ref, s: Stream, sh: Shared, part: Part, tag: Ref)
    ensures Received(cfg, k, s, sh, part.(tag := tag)) == Received(cfg, k, s, sh, part)
  {
    hide Outbound.ReceivedWindow, Inbound.ReceivedData, Inbound.ReceivedFinWrite, Outbound.ReceivedFinRead;
  }

  /** A frame for a stream that exists does not use the tag. One that starts a stream names it. */
  lemma ReceiveSame(names: Naming, e: Endpoint, e': Endpoint, part: Part, part': Part)
    requires Same(names, e, e') && part'.(tag := 0) == part.(tag := 0)
    requires part.tag in names ==> Lookup(e, part.id) == Some(part.tag)
    requires part.tag !in names ==> Lookup(e, part.id).None? && part'.tag !in names.Values
    ensures OutcomeSame(if part.tag in names then names else names[part.tag := part'.tag], Receive(e, part), Receive(e', part'))
  {
    hide SharedSame, SetSame, StreamsSame, TableSame, Injective, Handled, Lookup;
    LookupSame(names, e, e', part.id);
    SameSize(names, e.inbound, e'.inbound);
    var (k, k') := (part.tag, part'.tag);
    if k in names {
      HandledSame(names, e, e', k, part, part');
    } else {
      var more := names[k := k'];
      var s := NewStream(part.id, false);
      CreatedSame(names, e, e', k, k', s);
      TableMore(names, e.inbound, e'.inbound, k, k');
      TableUpdate(more, e.inbound, e'.inbound, part.id, k);
      HandledSame(more, Created(e, k, s).(inbound := e.inbound[part.id := k]), Created(e', k', s).(inbound := e'.inbound[part.id := k']), k, part, part');
    }
  }
}
