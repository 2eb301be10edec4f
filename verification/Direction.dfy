/**
 * One direction of one stream: the sender's half, the receiver's half, and what is in flight between them.
 * `fwd` carries data and `FIN_WRITE`, `bwd` carries credit and `FIN_READ`.
 */
module Direction {
  import opened Prelude
  import opened SharedFlow
  import Outbound
  import Inbound

  type Out = Outbound.Out
  type In = Inbound.In
  type Chunk = Outbound.Chunk
  type Credit = Inbound.Credit

  // What is in flight.

  function DataOf(fwd: seq<Chunk>): Bytes {
    if fwd == [] then [] else fwd[0].data + DataOf(fwd[1..])
  }

  function CreditOf(bwd: seq<Credit>): nat {
    if bwd == [] then 0 else bwd[0].amount + CreditOf(bwd[1..])
  }

  lemma {:induction false} DataAppend(fwd: seq<Chunk>, c: Chunk)
    ensures DataOf(fwd + [c]) == DataOf(fwd) + c.data
  {
    if fwd == [] {
      assert DataOf([c]) == c.data + DataOf([c][1..]);
    } else {
      DataAppend(fwd[1..], c);
      assert (fwd + [c])[1..] == fwd[1..] + [c];
    }
  }

  lemma {:induction false} CreditAppend(bwd: seq<Credit>, c: Credit)
    ensures CreditOf(bwd + [c]) == CreditOf(bwd) + c.amount
  {
    if bwd == [] {
      assert CreditOf([c]) == c.amount + CreditOf([c][1..]);
    } else {
      CreditAppend(bwd[1..], c);
      assert (bwd + [c])[1..] == bwd[1..] + [c];
    }
  }

  // The invariant.

  /** A half-closed side always has something left. The counters of a side agree with what it holds. */
  ghost predicate OutOk(o: Out) {
    && (o.state.HalfClosed? ==> o.state.ready != [])
    && (Outbound.FinReadReceived(o) ==> o.unacked == 0)
  }

  ghost predicate InOk(i: In) {
    && (!i.state.Closed? ==>
          && i.credit + |Inbound.Unread(i)| == i.unacked
          && i.forgotten == 0
          && !i.quit
          && (forall c | c in i.state.ready :: c != []))
    && (i.state.HalfClosed? ==> i.state.ready != [])
    && (i.state.Closed? && !i.state.fin.sent ==> i.credit <= i.unacked && i.forgotten == 0)
    && (i.state.Closed? && i.state.fin.sent ==> i.credit == 0 && i.unacked == 0)
    && (i.state.Closed? && !i.quit ==> i.state.fin.received)
  }

  /** `FIN_WRITE` is the last thing that a sender puts in flight, and the last thing that a receiver takes out. */
  ghost predicate FwdOk(sent: bool, received: bool, fwd: seq<Chunk>) {
    && (forall p | 0 <= p < |fwd| :: fwd[p].data != [] || fwd[p].fin)
    && (forall p | 0 <= p < |fwd| :: fwd[p].fin <==> sent && p == |fwd| - 1)
    && (received ==> sent && fwd == [])
    && (sent && !received ==> fwd != [])
  }

  /** Likewise for credit and `FIN_READ`. */
  ghost predicate BwdOk(sent: bool, received: bool, bwd: seq<Credit>) {
    && (forall p | 0 <= p < |bwd| :: bwd[p].amount > 0 || bwd[p].fin)
    && (forall p | 0 <= p < |bwd| :: bwd[p].fin <==> sent && p == |bwd| - 1)
    && (received ==> sent && bwd == [])
    && (sent && !received ==> bwd != [])
  }

  /** Every byte that the sender counts is counted by the receiver, in flight, on its way back, or forgotten. */
  ghost predicate Conserved(o: Out, i: In, fwd: seq<Chunk>, bwd: seq<Credit>) {
    !Outbound.FinReadReceived(o) ==>
      o.unacked == i.unacked + |DataOf(fwd)| + CreditOf(bwd) + i.forgotten
  }

  /** What the application wrote is what the peer read, holds, will receive, and what still waits, in this order. */
  ghost predicate Intact(o: Out, i: In, fwd: seq<Chunk>) {
    !i.quit ==> o.accepted == i.taken + Inbound.Unread(i) + DataOf(fwd) + Outbound.Waiting(o)
  }

  ghost predicate DirInv(o: Out, i: In, fwd: seq<Chunk>, bwd: seq<Credit>) {
    && OutOk(o) && InOk(i)
    && FwdOk(Outbound.FinWriteSent(o), Inbound.FinWriteReceived(i), fwd)
    && BwdOk(Inbound.FinReadSent(i), Outbound.FinReadReceived(o), bwd)
    && Conserved(o, i, fwd, bwd)
    && Intact(o, i, fwd)
  }

  lemma InitDir()
    ensures DirInv(Outbound.NEW_OUT, Inbound.NEW_IN, [], [])
  {
  }

  // The application.

  /** A write is accepted exactly if the direction is open and nothing waits, and then it is taken as it is. */
  lemma WriteTakes(o: Out, data: Bytes)
    ensures var (o', r) := Outbound.Write(o, data);
            && (r.Accepted? <==> o.state.Open? && Outbound.Waiting(o) == [])
            && (r.BrokenPipe? <==> !o.state.Open?)
            && (r.Accepted? ==> o'.state.Open? && Outbound.Waiting(o') == data && o'.accepted == o.accepted + data && o'.unacked == o.unacked)
            && (!r.Accepted? ==> o' == o)
  {
  }

  /** A closed half is not open, and closing loses nothing that was accepted, and all that was not read. */
  lemma CloseTakes(o: Out, i: In)
    ensures var o' := Outbound.CloseWriting(o);
            && !o'.state.Open? && Outbound.Waiting(o') == Outbound.Waiting(o) && Outbound.OutFin(o') == Outbound.OutFin(o)
            && o'.accepted == o.accepted && o'.unacked == o.unacked
    ensures var i' := Inbound.CloseReading(i);
            && i'.state.Closed? && Inbound.Unread(i') == [] && i'.taken == i.taken && i'.unacked == i.unacked
            && Inbound.FinReadSent(i') == Inbound.FinReadSent(i) && Inbound.FinWriteReceived(i') == Inbound.FinWriteReceived(i)
  {
  }

  lemma WriteKeeps(o: Out, i: In, fwd: seq<Chunk>, bwd: seq<Credit>, data: Bytes)
    requires DirInv(o, i, fwd, bwd)
    ensures DirInv(Outbound.Write(o, data).0, i, fwd, bwd)
  {
  }

  lemma CloseWritingKeeps(o: Out, i: In, fwd: seq<Chunk>, bwd: seq<Credit>)
    requires DirInv(o, i, fwd, bwd)
    ensures DirInv(Outbound.CloseWriting(o), i, fwd, bwd)
  {
  }

  /**
   * Reading returns the oldest unread chunk, if there is one, and changes nothing that the peer can see. It ends exactly if
   * the direction is closed.
   */
  lemma ReadTakes(i: In)
    requires InOk(i)
    ensures var (i', r) := Inbound.Read(i);
            && (r.Data? <==> Inbound.Unread(i) != []) && (r.End? <==> i.state.Closed?)
            && (r.Data? ==> r.chunk != [] && Inbound.Unread(i) == r.chunk + Inbound.Unread(i') && i'.taken == i.taken + r.chunk)
            && (!r.Data? ==> i' == i)
            && InOk(i') && i'.quit == i.quit && i'.unacked == i.unacked && i'.forgotten == i.forgotten
            && i'.taken + Inbound.Unread(i') == i.taken + Inbound.Unread(i)
            && Inbound.FinWriteReceived(i') == Inbound.FinWriteReceived(i)
            && Inbound.FinReadSent(i') == Inbound.FinReadSent(i)
  {
    if !i.state.Closed? && i.state.ready != [] {
      var ready := i.state.ready;
      assert Flat(ready) == ready[0] + Flat(ready[1..]);
      assert Flat([]) == [];
      assert forall c | c in ready[1..] :: c in ready;
      assert ready[0] in ready;
      var rest := Flat(ready[1..]);
      assert i.taken + (ready[0] + rest) == i.taken + ready[0] + rest;
    }
  }

  lemma ReadKeeps(o: Out, i: In, fwd: seq<Chunk>, bwd: seq<Credit>)
    requires DirInv(o, i, fwd, bwd)
    ensures DirInv(o, Inbound.Read(i).0, fwd, bwd)
  {
    hide Inbound.Read, Inbound.Unread, Inbound.FinWriteReceived, Inbound.FinReadSent, InOk, OutOk, FwdOk, BwdOk, DataOf, CreditOf;
    ReadTakes(i);
  }

  lemma CloseReadingKeeps(o: Out, i: In, fwd: seq<Chunk>, bwd: seq<Credit>)
    requires DirInv(o, i, fwd, bwd)
    ensures DirInv(o, Inbound.CloseReading(i), fwd, bwd)
  {
  }

  // The sender's task.

  /** The sender moves waiting bytes into flight and counts them. `FIN_WRITE` goes with the last of them. */
  lemma PollOutSends(o: Out, me: Ref, sh: Shared, base: nat, limit: nat, allowance: nat)
    requires OutOk(o)
    ensures var p := Outbound.PollOut(me, o, sh, base, limit, allowance);
            && (p.sent.None? ==> p.o == o)
            && (p.sent.Some? ==>
                  var c := p.sent.value;
                  && OutOk(p.o)
                  && (c.data != [] || c.fin)
                  && !Outbound.FinWriteSent(o) && Outbound.FinWriteSent(p.o) == c.fin
                  && Outbound.FinReadReceived(p.o) == Outbound.FinReadReceived(o)
                  && Outbound.Waiting(o) == c.data + Outbound.Waiting(p.o)
                  && p.o.unacked == o.unacked + |c.data|
                  && p.o.accepted == o.accepted)
  {
    hide Outbound.Plan;
    if !o.state.Closed? {
      PlanCounts(me, |o.state.ready|, o.unacked, sh, base, limit, allowance);
    }
  }

  lemma PlanCounts(me: Ref, waiting: nat, unacked: nat, sh: Shared, base: nat, limit: nat, allowance: nat)
    ensures var p := Outbound.Plan(me, waiting, unacked, sh, base, limit, allowance);
            p.n <= waiting && p.unacked == unacked + p.n
  {
  }

  lemma FwdAppend(received: bool, fwd: seq<Chunk>, c: Chunk)
    requires FwdOk(false, received, fwd)
    requires c.data != [] || c.fin
    ensures FwdOk(c.fin, received, fwd + [c])
  {
  }

  lemma PollOutKeeps(o: Out, i: In, fwd: seq<Chunk>, bwd: seq<Credit>,
                     me: Ref, sh: Shared, base: nat, limit: nat, allowance: nat)
    requires DirInv(o, i, fwd, bwd)
    ensures var p := Outbound.PollOut(me, o, sh, base, limit, allowance);
            && (p.sent.None? ==> p.o == o)
            && (p.sent.Some? ==> DirInv(p.o, i, fwd + [p.sent.value], bwd) && (p.sent.value.data != [] || p.sent.value.fin))
  {
    hide Outbound.PollOut, InOk, OutOk, Outbound.OutFin, Outbound.Waiting, Inbound.FinWriteReceived, Intact, FwdOk, DataOf;
    PollOutSends(o, me, sh, base, limit, allowance);
    var p := Outbound.PollOut(me, o, sh, base, limit, allowance);
    if p.sent.Some? {
      DataAppend(fwd, p.sent.value);
      FwdAppend(Inbound.FinWriteReceived(i), fwd, p.sent.value);
      IntactSends(o, i, fwd, p.sent.value, p.o);
    }
  }

  /** Data goes from what waits at the writer to what is in flight. */
  lemma IntactSends(o: Out, i: In, fwd: seq<Chunk>, c: Chunk, o': Out)
    requires Intact(o, i, fwd) && o'.accepted == o.accepted && Outbound.Waiting(o) == c.data + Outbound.Waiting(o')
    ensures Intact(o', i, fwd + [c])
  {
    hide DataOf, Inbound.Unread, Outbound.Waiting;
    DataAppend(fwd, c);
    if !i.quit {
      var (before, sent, rest) := (i.taken + Inbound.Unread(i), DataOf(fwd), Outbound.Waiting(o'));
      assert before + sent + (c.data + rest) == before + (sent + c.data) + rest;
    }
  }

  // The receiver's task.

  lemma PollInKeeps(o: Out, i: In, fwd: seq<Chunk>, bwd: seq<Credit>, sh: Shared, base: nat, threshold: nat)
    requires DirInv(o, i, fwd, bwd)
    requires threshold >= 1
    ensures var p := Inbound.PollIn(i, sh, base, threshold);
            && (p.sent.None? ==> p.i == i)
            && (p.sent.Some? ==> DirInv(o, p.i, fwd, bwd + [p.sent.value]) && (p.sent.value.amount > 0 || p.sent.value.fin))
  {
    var p := Inbound.PollIn(i, sh, base, threshold);
    if p.sent.Some? {
      CreditAppend(bwd, p.sent.value);
    }
  }

  // The receiver takes the next item in flight.

  /** The receiver counts the data and keeps it for the reader, or forgets it if nobody reads. */
  lemma DataTaken(i: In, sh: Shared, base: nat, data: Bytes)
    requires InOk(i) && !Inbound.FinWriteReceived(i)
    ensures var r := Inbound.ReceivedData(i, sh, base, data);
            && (r.Err? ==> r.error.PoolExceeded? && data != [] && !Inbound.FinReadSent(i))
            && (r.Ok? ==>
                  var i' := r.value.0;
                  && InOk(i') && !Inbound.FinWriteReceived(i')
                  && Inbound.FinReadSent(i') == Inbound.FinReadSent(i) && i'.quit == i.quit
                  && i'.unacked + i'.forgotten == i.unacked + i.forgotten + |data|
                  && (!i.quit ==> i'.taken + Inbound.Unread(i') == i.taken + Inbound.Unread(i) + data))
  {
    if i.state.Open? && data != [] {
      FlatAppend(i.state.ready, data);
    }
  }

  lemma FinWriteTaken(i: In)
    requires InOk(i) && !Inbound.FinWriteReceived(i)
    ensures var r := Inbound.ReceivedFinWrite(i);
            && r.Ok?
            && var i' := r.value;
               && InOk(i') && Inbound.FinWriteReceived(i')
               && Inbound.FinReadSent(i') == Inbound.FinReadSent(i) && i'.quit == i.quit
               && i'.unacked == i.unacked && i'.forgotten == i.forgotten
               && i'.taken == i.taken && Inbound.Unread(i') == Inbound.Unread(i)
  {
  }

  lemma DataArrives(o: Out, i: In, fwd: seq<Chunk>, bwd: seq<Credit>, sh: Shared, base: nat)
    requires DirInv(o, i, fwd, bwd) && fwd != []
    ensures var r := Inbound.ReceivedData(i, sh, base, fwd[0].data);
            && (r.Err? ==> r.error.PoolExceeded? && fwd[0].data != [] && !Inbound.FinReadSent(i))
            && (r.Ok? ==>
                  var i' := r.value.0;
                  var f' := if fwd[0].fin then Inbound.ReceivedFinWrite(i') else Ok(i');
                  f'.Ok? && DirInv(o, f'.value, fwd[1..], bwd))
  {
    hide Inbound.ReceivedData, Inbound.ReceivedFinWrite, InOk, OutOk, Inbound.FinWriteReceived, Inbound.FinReadSent, Intact, DataOf;
    DataTaken(i, sh, base, fwd[0].data);
    DataFirst(fwd);
    var r := Inbound.ReceivedData(i, sh, base, fwd[0].data);
    if r.Ok? {
      var i' := r.value.0;
      if fwd[0].fin {
        FinWriteTaken(i');
        IntactMoves(o, i, fwd, Inbound.ReceivedFinWrite(i').value);
      } else {
        IntactMoves(o, i, fwd, i');
      }
    }
  }

  lemma DataFirst(fwd: seq<Chunk>)
    requires fwd != []
    ensures DataOf(fwd) == fwd[0].data + DataOf(fwd[1..])
  {
  }

  /** Data goes from what is in flight to what waits to be read. */
  lemma IntactMoves(o: Out, i: In, fwd: seq<Chunk>, i': In)
    requires fwd != [] && Intact(o, i, fwd) && i'.quit == i.quit
    requires !i.quit ==> i'.taken + Inbound.Unread(i') == i.taken + Inbound.Unread(i) + fwd[0].data
    ensures Intact(o, i', fwd[1..])
  {
    hide DataOf, Inbound.Unread, Outbound.Waiting;
    DataFirst(fwd);
    if !i.quit {
      var (done, rest) := (i.taken + Inbound.Unread(i), DataOf(fwd[1..]));
      assert done + (fwd[0].data + rest) == done + fwd[0].data + rest;
    }
  }

  // The sender takes the next credit in flight.

  lemma CreditArrives(o: Out, i: In, fwd: seq<Chunk>, bwd: seq<Credit>, me: Ref, sh: Shared, sh2: Shared, base: nat)
    requires DirInv(o, i, fwd, bwd) && bwd != []
    ensures var r := if bwd[0].amount > 0 then Outbound.ReceivedWindow(me, o, sh, base, bwd[0].amount) else Ok((o, sh));
            && r.Ok?
            && var o' := r.value.0;
               var f' := if bwd[0].fin then Outbound.ReceivedFinRead(me, o', sh2, base) else Ok((o', sh2));
               f'.Ok? && DirInv(f'.value.0, i, fwd, bwd[1..])
  {
    assert CreditOf(bwd) == bwd[0].amount + CreditOf(bwd[1..]);
  }

  // Consequences.

  /** The receiver never counts more than the sender, and credit never exceeds what the sender has in flight. */
  lemma SenderCountsMore(o: Out, i: In, fwd: seq<Chunk>, bwd: seq<Credit>)
    requires DirInv(o, i, fwd, bwd)
    ensures i.unacked <= o.unacked
    ensures CreditOf(bwd) <= o.unacked
    ensures !Inbound.FinReadSent(i) ==> i.unacked + |DataOf(fwd)| <= o.unacked
  {
  }

  /** A reader that did not stop on its own sees the end of the stream only after everything that was written. */
  lemma EndMeansEverything(o: Out, i: In, fwd: seq<Chunk>, bwd: seq<Credit>)
    requires DirInv(o, i, fwd, bwd)
    requires Inbound.Read(i).1.End? && !i.quit
    ensures i.taken == o.accepted && o.state.Closed?
  {
  }
}
