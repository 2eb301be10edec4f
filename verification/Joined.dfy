/**
 * Two endpoints that name their streams on their own, joined by channels of parts without names. That is what the objects
 * of `Connection` are when a wire joins them. Every such run is a run of `System` under other names.
 */
module Joined {
  import opened Prelude
  import opened Fins
  import opened StreamId
  import opened Endpoint
  import opened Local
  import opened System
  import opened Safety
  import opened Renaming

  /** One side, and the reference that it uses next. */
  datatype End = End(e: Endpoint, next: nat)

  datatype Pair = Pair(client: End, server: End, up: seq<Part>, down: seq<Part>)

  function EndOf(p: Pair, role: Role): End {
    if role.Client? then p.client else p.server
  }

  function ChanOf(p: Pair, role: Role): seq<Part> {
    if role.Client? then p.up else p.down
  }

  function WithEnd(p: Pair, role: Role, x: End): Pair {
    if role.Client? then p.(client := x) else p.(server := x)
  }

  function WithChanOf(p: Pair, role: Role, ch: seq<Part>): Pair {
    if role.Client? then p.(up := ch) else p.(down := ch)
  }

  function StartPair(client: Config, server: Config): Pair {
    Pair(End(NewEndpoint(Client, client), 0), End(NewEndpoint(Server, server), 0), [], [])
  }

  /** One side does something on its own: `Local.Do`. */
  function DoAt(p: Pair, role: Role, op: Op): Result<Pair, Violation> {
    var x := EndOf(p, role);
    var (e, n) :- Do(x.e, x.next, op);
    Ok(WithEnd(p, role, End(e, n)))
  }

  /** What a poll puts on the wire. */
  function Puts(e: Endpoint, k: Ref, allowance: nat): Option<Part> {
    if k !in e.tasks || k !in e.streams then None
    else
      var part := Poll(e, k, allowance).1;
      if part.None? then None else Some(part.value.(tag := 0))
  }

  function PairNext(p: Pair, a: Action): Result<Pair, Violation> {
    match a
    case Opens(role, key) => DoAt(p, role, Op.Opens(key))
    case Calls(role, k, call) => DoAt(p, role, Op.Calls(k, call))
    case Polls(role, k, allowance) =>
      var part := Puts(EndOf(p, role).e, k, allowance);
      var p' :- DoAt(p, role, Op.Polls(k, allowance));
      Ok(WithChanOf(p', role, Sent(ChanOf(p, role), part)))
    case Delivers(role) =>
      if ChanOf(p, role) == [] then Ok(p)
      else
        var p' :- DoAt(p, role.Peer(), Receives(ChanOf(p, role)[0]));
        Ok(WithChanOf(p', role, ChanOf(p, role)[1..]))
  }

  function PairRun(p: Pair, actions: seq<Action>): Result<Pair, Violation>
    decreases |actions|
  {
    if actions == [] then Ok(p)
    else
      var p' :- PairNext(p, actions[0]);
      PairRun(p', actions[1..])
  }

  // The same run in the system.

  datatype Names = Names(client: Naming, server: Naming)

  function NamesOf(names: Names, role: Role): Naming {
    if role.Client? then names.client else names.server
  }

  function WithNames(names: Names, role: Role, n: Naming): Names {
    if role.Client? then names.(client := n) else names.(server := n)
  }

  ghost predicate EndSame(names: Naming, e: Endpoint, x: End) {
    Same(names, e, x.e) && forall k | k in names :: names[k] < x.next
  }

  ghost predicate ChanSame(ch: seq<Part>, ch': seq<Part>) {
    |ch| == |ch'| && forall i | 0 <= i < |ch| :: ch'[i] == ch[i].(tag := 0)
  }

  ghost predicate SideSame(names: Names, s: System, p: Pair, role: Role) {
    EndSame(NamesOf(names, role), Side(s, role), EndOf(p, role)) && ChanSame(Chan(s, role), ChanOf(p, role))
  }

  ghost predicate Simulates(names: Names, s: System, p: Pair) {
    SysInv(s) && SideSame(names, s, p, Client) && SideSame(names, s, p, Server)
  }

  lemma StartSame(client: Config, server: Config)
    requires ConfigsMatch(client, server) && ConfigsMatch(server, client)
    ensures Simulates(Names(map[], map[]), Start(client, server), StartPair(client, server))
  {
    hide SysInv;
    StartInv(client, server);
  }

  lemma BothSides(names: Names, s: System, p: Pair, role: Role)
    requires Simulates(names, s, p)
    ensures SideSame(names, s, p, role) && SideSame(names, s, p, role.Peer())
  {
    hide SysInv, SideSame;
  }

  /** Some name in the system for a stream of one side. */
  lemma OldName(names: Naming, e: Endpoint, x: End, k: Ref) returns (j: Ref)
    requires EndSame(names, e, x) && k in x.e.streams
    ensures j in names && names[j] == k
  {
    hide SharedSame, SetSame, TableSame;
    assert k in names.Values;
    j :| j in names && names[j] == k;
  }

  lemma CallSimulates(names: Names, s: System, p: Pair, role: Role, k: Ref, call: AppCall) returns (steps: seq<Action>, s': System)
    requires Simulates(names, s, p)
    ensures PairNext(p, Action.Calls(role, k, call)).Ok?
    ensures Run(s, steps) == Ok(s') && Simulates(names, s', PairNext(p, Action.Calls(role, k, call)).value)
  {
    hide SysInv, Same, Call;
    BothSides(names, s, p, role);
    var (e, x) := (Side(s, role), EndOf(p, role));
    if k in x.e.streams {
      var j := OldName(NamesOf(names, role), e, x, k);
      CallSame(NamesOf(names, role), e, x.e, j, call);
      steps, s' := [Action.Calls(role, j, call)], WithSide(s, role, Call(e, j, call));
      Step(s, steps[0]);
      RunOne(s, steps[0]);
    } else {
      steps, s' := [], s;
    }
  }

  lemma RunOne(s: System, a: Action)
    ensures Run(s, [a]) == Next(s, a)
  {
    hide Next;
    assert [a][1..] == [];
    if Next(s, a).Ok? {
      assert Run(Next(s, a).value, []) == Ok(Next(s, a).value);
    }
  }

  lemma ChanMore(ch: seq<Part>, ch': seq<Part>, part: Option<Part>, part': Option<Part>)
    requires ChanSame(ch, ch')
    requires if part.None? then part'.None? else part' == Some(part.value.(tag := 0))
    ensures ChanSame(Sent(ch, part), Sent(ch', part'))
  {
  }

  lemma TaskSame(names: Naming, e: Endpoint, x: End, j: Ref)
    requires EndSame(names, e, x) && j in names
    ensures j in e.tasks <==> names[j] in x.e.tasks
    ensures j in e.streams && names[j] in x.e.streams
  {
    hide SharedSame, TableSame;
  }

  lemma PollSimulates(names: Names, s: System, p: Pair, role: Role, k: Ref, allowance: nat) returns (steps: seq<Action>, s': System)
    requires Simulates(names, s, p)
    ensures PairNext(p, Action.Polls(role, k, allowance)).Ok?
    ensures Run(s, steps) == Ok(s') && Simulates(names, s', PairNext(p, Action.Polls(role, k, allowance)).value)
  {
    hide SysInv, Same, Poll, ChanSame;
    BothSides(names, s, p, role);
    var (e, x) := (Side(s, role), EndOf(p, role));
    if k in x.e.tasks && k in x.e.streams {
      var j := OldName(NamesOf(names, role), e, x, k);
      TaskSame(NamesOf(names, role), e, x, j);
      PollSame(NamesOf(names, role), e, x.e, j, allowance);
      ChanMore(Chan(s, role), ChanOf(p, role), Poll(e, j, allowance).1, Puts(x.e, k, allowance));
      steps, s' := [Action.Polls(role, j, allowance)], Polled(s, role, j, allowance);
      Step(s, steps[0]);
      RunOne(s, steps[0]);
    } else {
      ChanMore(Chan(s, role), ChanOf(p, role), None, None);
      steps, s' := [], s;
    }
  }

  /** A name that is not in use on either side of the naming. */
  lemma Unnamed(names: Names, s: System, p: Pair, role: Role)
    requires Simulates(names, s, p)
    ensures |s.ids| !in NamesOf(names, role) && EndOf(p, role).next !in NamesOf(names, role).Values
  {
    hide SysInv, SharedSame, TableSame, SetSame, ChanSame;
    BothSides(names, s, p, role);
    NewRef(s, role);
  }

  lemma OpenSimulates(names: Names, s: System, p: Pair, role: Role, key: nat) returns (steps: seq<Action>, s': System, names': Names)
    requires Simulates(names, s, p)
    ensures PairNext(p, Action.Opens(role, key)).Ok?
    ensures Run(s, steps) == Ok(s') && Simulates(names', s', PairNext(p, Action.Opens(role, key)).value)
  {
    hide SysInv, Same, OpenOutbound, IsVacantKey, ChanSame;
    BothSides(names, s, p, role);
    Unnamed(names, s, p, role);
    var (e, x, n) := (Side(s, role), EndOf(p, role), NamesOf(names, role));
    VacantSame(n, e, x.e, key);
    OpenSame(n, e, x.e, key, |s.ids|, x.next);
    if IsVacantKey(e, key) && OpenOutbound(e, key, |s.ids|).Some? {
      names' := WithNames(names, role, n[|s.ids| := x.next]);
      steps, s' := [Action.Opens(role, key)], Opened(s, role, key);
      Step(s, steps[0]);
      RunOne(s, steps[0]);
    } else {
      steps, s', names' := [], s, names;
    }
  }

  lemma DeliverSimulates(names: Names, s: System, p: Pair, role: Role) returns (steps: seq<Action>, s': System, names': Names)
    requires Simulates(names, s, p)
    ensures PairNext(p, Action.Delivers(role)).Ok?
    ensures Run(s, steps) == Ok(s') && Simulates(names', s', PairNext(p, Action.Delivers(role)).value)
  {
    hide SysInv, Same, Receive, Lookup;
    BothSides(names, s, p, role);
    if Chan(s, role) == [] {
      steps, s', names' := [], s, names;
    } else {
      var (part, y) := (Chan(s, role)[0], role.Peer());
      var (e, x, n) := (Side(s, y), EndOf(p, y), NamesOf(names, y));
      Unnamed(names, s, p, y);
      Step(s, Action.Delivers(role));
      FrontSame(names, s, p, role);
      ReceiveSame(n, e, x.e, part, ChanOf(p, role)[0].(tag := x.next));
      names' := if part.tag in n then names else WithNames(names, y, n[part.tag := x.next]);
      steps, s' := [Action.Delivers(role)], Delivered(s, role);
      RunOne(s, steps[0]);
    }
  }

  lemma FrontSame(names: Names, s: System, p: Pair, role: Role)
    requires Simulates(names, s, p) && Chan(s, role) != []
    ensures var (part, e, n) := (Chan(s, role)[0], Side(s, role.Peer()), NamesOf(names, role.Peer()));
            && (part.tag in n ==> Lookup(e, part.id) == Some(part.tag))
            && (part.tag !in n ==> Lookup(e, part.id).None?)
  {
    hide SysInv, SharedSame, TableSame, SetSame, ChanSame, Lookup, PartsOf;
    BothSides(names, s, p, role);
    FindsStream(s, role);
  }

  lemma {:induction false} RunAppend(s: System, a: seq<Action>, b: seq<Action>)
    requires Run(s, a).Ok?
    ensures Run(s, a + b) == Run(Run(s, a).value, b)
    decreases |a|
  {
    hide Next;
    if a == [] {
      assert a + b == b;
    } else {
      RunAppend(Next(s, a[0]).value, a[1..], b);
      assert (a + b)[1..] == a[1..] + b && (a + b)[0] == a[0];
    }
  }

  lemma StepSimulates(names: Names, s: System, p: Pair, a: Action) returns (steps: seq<Action>, s': System, names': Names)
    requires Simulates(names, s, p)
    ensures PairNext(p, a).Ok?
    ensures Run(s, steps) == Ok(s') && Simulates(names', s', PairNext(p, a).value)
  {
    hide Simulates, PairNext, Run;
    match a
    case Opens(role, key) => steps, s', names' := OpenSimulates(names, s, p, role, key);
    case Calls(role, k, call) =>
      steps, s' := CallSimulates(names, s, p, role, k, call);
      names' := names;
    case Polls(role, k, allowance) =>
      steps, s' := PollSimulates(names, s, p, role, k, allowance);
      names' := names;
    case Delivers(role) => steps, s', names' := DeliverSimulates(names, s, p, role);
  }

  lemma {:induction false} RunSimulates(names: Names, s: System, p: Pair, actions: seq<Action>)
    returns (steps: seq<Action>, s': System, names': Names)
    requires Simulates(names, s, p)
    ensures PairRun(p, actions).Ok?
    ensures Run(s, steps) == Ok(s') && Simulates(names', s', PairRun(p, actions).value)
    decreases |actions|
  {
    hide Simulates, PairNext, Next;
    if actions == [] {
      steps, s', names' := [], s, names;
    } else {
      var first, s1, names1 := StepSimulates(names, s, p, actions[0]);
      var rest;
      rest, s', names' := RunSimulates(names1, s1, PairNext(p, actions[0]).value, actions[1..]);
      RunAppend(s, first, rest);
      steps := first + rest;
    }
  }

  /** The pair is a reachable state of the system, under other names. */
  ghost predicate Mirrors(client: Config, server: Config, p: Pair, steps: seq<Action>, s: System, names: Names) {
    Run(Start(client, server), steps) == Ok(s) && Simulates(names, s, p)
  }

  /**
   * Two endpoints with their own names for the streams never fail each other, and whatever holds in every run of the
   * system holds in every run of the two.
   */
  lemma JoinedNeverFail(client: Config, server: Config, actions: seq<Action>)
    requires ConfigsMatch(client, server) && ConfigsMatch(server, client)
    ensures PairRun(StartPair(client, server), actions).Ok?
    ensures exists steps, s, names :: Mirrors(client, server, PairRun(StartPair(client, server), actions).value, steps, s, names)
  {
    hide Simulates, Run, PairRun;
    StartSame(client, server);
    var steps, s, names := RunSimulates(Names(map[], map[]), Start(client, server), StartPair(client, server), actions);
    assert Mirrors(client, server, PairRun(StartPair(client, server), actions).value, steps, s, names);
  }

  lemma {:induction false} PairRunAppend(p: Pair, a: seq<Action>, b: seq<Action>)
    requires PairRun(p, a).Ok?
    ensures PairRun(p, a + b) == PairRun(PairRun(p, a).value, b)
    decreases |a|
  {
    hide PairNext;
    if a == [] {
      assert a + b == b;
    } else {
      PairRunAppend(PairNext(p, a[0]).value, a[1..], b);
      assert (a + b)[1..] == a[1..] + b && (a + b)[0] == a[0];
    }
  }

  lemma PairRunOne(p: Pair, a: Action)
    ensures PairRun(p, [a]) == PairNext(p, a)
  {
    hide PairNext;
    assert [a][1..] == [];
    if PairNext(p, a).Ok? {
      assert PairRun(PairNext(p, a).value, []) == Ok(PairNext(p, a).value);
    }
  }
}
