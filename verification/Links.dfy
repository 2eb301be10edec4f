/**
 * One incarnation of a stream: the object of the side that started it, the object of the other side once
 * it exists, and the frames in flight between them.
 */
module Links {
  import opened Prelude
  import opened Flow
  import opened SharedFlow
  import opened StreamId
  import opened Endpoint
  import opened Direction
  import Outbound
  import Inbound

  // What a frame carries for each direction.

  function FwdItem(p: Part): seq<Chunk> {
    if p.data != [] || p.finWrite then [Outbound.Chunk(p.data, p.finWrite)] else []
  }

  function BwdItem(p: Part): seq<Credit> {
    if p.credit > 0 || p.finRead then [Inbound.Credit(p.credit, p.finRead)] else []
  }

  function FwdOf(ps: seq<Part>): seq<Chunk> {
    if ps == [] then [] else FwdItem(ps[0]) + FwdOf(ps[1..])
  }

  function BwdOf(ps: seq<Part>): seq<Credit> {
    if ps == [] then [] else BwdItem(ps[0]) + BwdOf(ps[1..])
  }

  lemma {:induction false} ItemsAppend(ps: seq<Part>, p: Part)
    ensures FwdOf(ps + [p]) == FwdOf(ps) + FwdItem(p)
    ensures BwdOf(ps + [p]) == BwdOf(ps) + BwdItem(p)
  {
    hide FwdItem, BwdItem;
    if ps == [] {
      assert [p][1..] == [];
    } else {
      ItemsAppend(ps[1..], p);
      assert (ps + [p])[1..] == ps[1..] + [p] && (ps + [p])[0] == ps[0];
      assert FwdItem(ps[0]) + (FwdOf(ps[1..]) + FwdItem(p)) == FwdItem(ps[0]) + FwdOf(ps[1..]) + FwdItem(p);
      assert BwdItem(ps[0]) + (BwdOf(ps[1..]) + BwdItem(p)) == BwdItem(ps[0]) + BwdOf(ps[1..]) + BwdItem(p);
    }
  }

  lemma ItemsPop(ps: seq<Part>)
    requires ps != []
    ensures FwdOf(ps) == FwdItem(ps[0]) + FwdOf(ps[1..])
    ensures BwdOf(ps) == BwdItem(ps[0]) + BwdOf(ps[1..])
  {
  }

  /** The part does something besides opening the stream. */
  ghost predicate NonTrivial(p: Part) {
    FwdItem(p) != [] || BwdItem(p) != []
  }

  // Both directions.

  ghost predicate DuplexInv(x: Stream, y: Stream, xy: seq<Part>, yx: seq<Part>) {
    && DirInv(x.out, y.inn, FwdOf(xy), BwdOf(yx))
    && DirInv(y.out, x.inn, FwdOf(yx), BwdOf(xy))
  }

  lemma CallKeeps(x: Stream, y: Stream, xy: seq<Part>, yx: seq<Part>, call: AppCall)
    requires DuplexInv(x, y, xy, yx)
    ensures DuplexInv(Called(x, call), y, xy, yx)
  {
    hide DirInv;
    match call
    case Write(data) => WriteKeeps(x.out, y.inn, FwdOf(xy), BwdOf(yx), data);
    case CloseWriting => CloseWritingKeeps(x.out, y.inn, FwdOf(xy), BwdOf(yx));
    case Read => ReadKeeps(y.out, x.inn, FwdOf(yx), BwdOf(xy));
    case CloseReading => CloseReadingKeeps(y.out, x.inn, FwdOf(yx), BwdOf(xy));
  }

  lemma PollKeeps(x: Stream, y: Stream, xy: seq<Part>, yx: seq<Part>,
                  cfg: Config, k: Ref, sh: Shared, threshold: nat, allowance: nat)
    requires DuplexInv(x, y, xy, yx) && threshold >= 1
    ensures var ip := Inbound.PollIn(x.inn, sh, cfg.localWindow, threshold);
            var op := Outbound.PollOut(k, x.out, ip.sh, cfg.remoteWindow, cfg.frameLimit, allowance);
            var x' := x.(out := op.o, inn := ip.i);
            && (ip.sent.None? && op.sent.None? ==> x' == x)
            && (ip.sent.Some? || op.sent.Some? ==>
                  DuplexInv(x', y, xy + [PartOf(k, x, ip.sent, op.sent)], yx)
                  && NonTrivial(PartOf(k, x, ip.sent, op.sent)))
  {
    hide DirInv, Inbound.PollIn, Outbound.PollOut, FwdOf, BwdOf;
    Direction.PollInKeeps(y.out, x.inn, FwdOf(yx), BwdOf(xy), sh, cfg.localWindow, threshold);
    var ip := Inbound.PollIn(x.inn, sh, cfg.localWindow, threshold);
    Direction.PollOutKeeps(x.out, y.inn, FwdOf(xy), BwdOf(yx), k, ip.sh, cfg.remoteWindow, cfg.frameLimit, allowance);
    var op := Outbound.PollOut(k, x.out, ip.sh, cfg.remoteWindow, cfg.frameLimit, allowance);
    var part := PartOf(k, x, ip.sent, op.sent);
    ItemsAppend(xy, part);
    assert FwdOf(xy) + FwdItem(part) == if op.sent.Some? then FwdOf(xy) + [op.sent.value] else FwdOf(xy);
    assert BwdOf(xy) + BwdItem(part) == if ip.sent.Some? then BwdOf(xy) + [ip.sent.value] else BwdOf(xy);
  }

  /** The receiver would not overdraw its pool by taking the data. */
  ghost predicate Fits(cfg: Config, i: Inbound.In, sh: Shared, data: Bytes) {
    data != [] && !Inbound.FinReadSent(i) ==>
      Moved(sh.rxUsed, Borrowed(i.unacked, cfg.localWindow), Borrowed(i.unacked + |data|, cfg.localWindow)) <= sh.rxSize
  }

  lemma OutTakes(cfg: Config, k: Ref, x: Stream, y: Stream, fwd: seq<Chunk>, bwd: seq<Credit>, sh: Shared, sh2: Shared, part: Part)
    requires DirInv(x.out, y.inn, fwd, BwdItem(part) + bwd)
    ensures var r := ArriveWindow(cfg, k, x, sh, part);
            && r.Ok? && r.value.0 == x.(out := r.value.0.out) && r.value.1.rxUsed == sh.rxUsed && r.value.1.rxSize == sh.rxSize
            && (forall i: In :: (var f := ArriveFinRead(cfg, k, r.value.0.(inn := i), sh2, part);
                 f.Ok? && f.value.0.inn == i && f.value.0 == x.(out := f.value.0.out, inn := i)
                 && DirInv(f.value.0.out, y.inn, fwd, bwd)))
  {
    var b := BwdItem(part) + bwd;
    if BwdItem(part) != [] {
      assert b[0] == BwdItem(part)[0] && b[1..] == bwd;
      CreditArrives(x.out, y.inn, fwd, b, k, sh, sh2, cfg.remoteWindow);
    } else {
      assert b == bwd;
    }
  }

  lemma InTakes(cfg: Config, k: Ref, x: Stream, y: Stream, fwd: seq<Chunk>, bwd: seq<Credit>, sh: Shared, part: Part)
    requires DirInv(y.out, x.inn, FwdItem(part) + fwd, bwd)
    requires Fits(cfg, x.inn, sh, part.data)
    ensures var r := ArriveData(cfg, x, sh, part);
            && r.Ok?
            && var f := ArriveFinWrite(k, r.value.0, r.value.1, part);
               f.Ok? && f.value.0 == x.(inn := f.value.0.inn) && DirInv(y.out, f.value.0.inn, fwd, bwd)
  {
    var a := FwdItem(part) + fwd;
    if FwdItem(part) != [] {
      assert a[0] == FwdItem(part)[0] && a[1..] == fwd;
      Direction.DataArrives(y.out, x.inn, a, bwd, sh, cfg.localWindow);
    } else {
      assert a == fwd;
    }
  }

  lemma ReceivedKeeps(cfg: Config, k: Ref, x: Stream, y: Stream, xy: seq<Part>, yx: seq<Part>, sh: Shared)
    requires DuplexInv(x, y, xy, yx) && yx != []
    requires Fits(cfg, x.inn, sh, yx[0].data)
    ensures var r := Received(cfg, k, x, sh, yx[0]);
            r.Ok? && DuplexInv(r.value.0, y, xy, yx[1..])
  {
    hide DirInv, ArriveWindow, ArriveData, ArriveFinWrite, ArriveFinRead, FwdOf, BwdOf, FwdItem, BwdItem;
    var part := yx[0];
    var fwd, bwd := FwdOf(yx[1..]), BwdOf(yx[1..]);
    ItemsPop(yx);
    OutTakes(cfg, k, x, y, FwdOf(xy), bwd, sh, sh, part);
    var (x1, sh1) := ArriveWindow(cfg, k, x, sh, part).value;
    InTakes(cfg, k, x1, y, fwd, BwdOf(xy), sh1, part);
    var (x2, sh2) := ArriveData(cfg, x1, sh1, part).value;
    var (x3, sh3) := ArriveFinWrite(k, x2, sh2, part).value;
    OutTakes(cfg, k, x, y, FwdOf(xy), bwd, sh, sh3, part);
    assert x3 == x1.(inn := x3.inn);
  }

  // `SYN` is the first thing that arrives, and arrives once.

  ghost predicate SynInv(unsent: bool, here: bool, to: seq<Part>, from: seq<Part>) {
    && (unsent ==> !here && to == [])
    && (!unsent && !here ==> to != [])
    && (forall q | 0 <= q < |to| :: to[q].syn <==> !here && q == 0)
    && (!here ==> from == [])
    && (forall q | 0 <= q < |from| :: !from[q].syn)
  }

  // The whole incarnation.

  datatype Link = Link(mine: Option<Stream>, theirs: Option<Stream>, to: seq<Part>, from: seq<Part>)

  function OrNew(s: Option<Stream>, id: Id): Stream {
    if s.Some? then s.value else NewStream(id, false)
  }

  ghost predicate LinkInv(id: Id, l: Link) {
    && l.mine.Some? && l.mine.value.id == id
    && (l.theirs.Some? ==> l.theirs.value.id == id && !l.theirs.value.syn)
    && DuplexInv(l.mine.value, OrNew(l.theirs, id), l.to, l.from)
    && SynInv(l.mine.value.syn, l.theirs.Some?, l.to, l.from)
  }

  lemma NewLink(id: Id)
    ensures LinkInv(id, Link(Some(NewStream(id, true)), None, [], []))
  {
    InitDir();
  }

  /** While frames are on their way to a side, that side has not seen both `FIN_*`. */
  lemma InFlightMeansAlive(x: Stream, y: Stream, xy: seq<Part>, yx: seq<Part>)
    requires DuplexInv(x, y, xy, yx)
    requires yx != [] && NonTrivial(yx[0])
    ensures !Dead(x)
  {
  }

  /** A side that is done knows that the other side has sent everything. */
  lemma DeadMeansPeerSent(x: Stream, y: Stream, xy: seq<Part>, yx: seq<Part>)
    requires DuplexInv(x, y, xy, yx) && Dead(x)
    ensures StreamFin(y).sent
    ensures !Dead(y) ==> xy != []
  {
  }

  lemma PeerOpenMeansAlive(x: Stream, y: Stream, xy: seq<Part>, yx: seq<Part>)
    requires DuplexInv(x, y, xy, yx) && !StreamFin(y).sent
    ensures !Dead(x)
  {
  }
}
