/** Total correctness of RelayConn when nothing fails. */
module TcpTermination {
  import opened Frames
  import opened Channel
  import opened ChannelInvariants
  import opened FlowControl
  import opened ChannelProgress
  import opened TcpRelay
  import opened TcpSafety

  /** Not a fault: no read, write or dial error, no cancellation, no link break, and
      the open is accepted. */
  predicate FaultFree(act: RelayAct) {
    match act
    case OfReader(ra) => ra.ReadSocket? ==> !ra.end.ReadError?
    case OfLoop(la) => !la.DialFailed? && !la.Quit? && (la.WriteSocket? ==> la.ok)
    case OfLink(a) => Calmly(a)
  }

  predicate Clean(end: ReadEnd) { end.NoEnd? || end.EndOfInput? }

  /** How far the session object has come, against its relay. */
  predicate CalmLife(e: End, r: Relay) {
    && !e.port.wrBroken && !e.port.rdStopped
    && (e.loc.life.Absent? ==> r.lp.at.Idle? && !e.loc.announced)
    && (if r.lp.at.Gone? then e.loc.life.Deleted? || e.loc.life.Done? else e.loc.life.Absent? || e.loc.life.Live?)
  }

  predicate CalmReader(r: Relay) {
    && ((r.rd.at.Want? || r.rd.at.Have?) ==> Clean(r.rd.at.next))
    && Clean(r.rd.result) && !r.rd.dropped
    && (r.rd.at.NotStarted? <==> r.lp.at.Idle?)
    && (r.rd.at.Exited? ==> r.rd.result.EndOfInput? || r.lp.localEof)
  }

  predicate CalmLoop(l: Local, lp: Loop) {
    && (lp.at.Ending() ==> lp.localEof && lp.remoteEof)
    && (lp.sockClosed ==> lp.at.Ending())
    && (lp.at.Selecting? || lp.at.Writing? || lp.at.Acking? ==> !(lp.localEof && lp.remoteEof))
    && (lp.localEof && !lp.at.SendingEof? <==> Eof in l.sent)
  }

  predicate Calm(e: End, r: Relay) {
    CalmLife(e, r) && CalmReader(r) && CalmLoop(e.loc, r.lp) && CalmSent(e.loc.sent)
  }

  predicate CalmTcp(s: Tcp) {
    TcpInv(s) && Calm(s.ch.a, s.a) && Calm(s.ch.b, s.b)
  }

  /** A loop that is still looping finds neither a close nor an error: the peer
      closes only after both EOFs have been seen. */
  lemma NoCloseYet(s: Tcp)
    requires CalmTcp(s) && s.a.lp.at.Selecting? && s.ch.a.loc.q.recv != []
    ensures !s.ch.a.loc.q.recv[0].Close? && !s.ch.a.loc.q.recv[0].Error?
  {
    InvPrefix(Flip(s.ch));
    var got, recv, sent := s.ch.a.loc.got, s.ch.a.loc.q.recv, s.ch.b.loc.sent;
    var k := |got|;
    assert (got + recv)[k] == recv[0] == sent[k];
    assert got == sent[..k];
    if recv[0].Close? {
      assert s.a.lp.remoteEof;
      assert s.b.lp.at.Ending();
      EofWasSent(s);
      assert false;
    }
  }

  /** If b has seen an EOF then a has sent it, and knows. */
  lemma EofWasSent(s: Tcp)
    requires TcpInv(s) && CalmLoop(s.ch.a.loc, s.a.lp) && s.b.lp.remoteEof
    ensures s.a.lp.localEof && !s.a.lp.at.SendingEof?
  {
    InvPrefix(s.ch);
    var got := s.ch.b.loc.got;
    var i :| 0 <= i < |got| && got[i] == Eof;
    assert s.ch.a.loc.sent[i] == Eof;
  }

  lemma CalmByReader(e: End, r: Relay, act: ReaderAct)
    requires ReaderCan(e, r, act) && FaultFree(OfReader(act)) && RelayInv(e.loc, r) && Calm(e, r)
    ensures var l', rd' := AfterReader(e, r, act), ReaderNext(e.port.wrBroken, r.rd, act);
      CalmReader(r.(rd := rd')) && CalmLoop(l', r.lp) && CalmSent(l'.sent) && l'.life == e.loc.life
  {
    var q, q' := e.loc.sent, AfterReader(e, r, act).sent;
    if q' != q {
      assert forall i :: 0 <= i < |q| ==> q'[..i] == q[..i];
    }
  }

  lemma CalmByLoop(e: End, r: Relay, act: LoopAct)
    requires LoopCan(e, r, act) && FaultFree(OfLoop(act)) && LoopFits(e.loc, r) && Calm(e, r)
    requires act.TakeNext? ==> !e.loc.q.recv[0].Close? && !e.loc.q.recv[0].Error?
    ensures var l', r' := AfterLoop(e, r, act), RelayAfterLoop(e, r, act);
      CalmReader(r') && CalmLoop(l', r'.lp) && CalmLife(e.(loc := l'), r')
  {
  }

  lemma CalmSentByLoop(e: End, r: Relay, act: LoopAct)
    requires LoopCan(e, r, act) && FaultFree(OfLoop(act)) && Calm(e, r)
    ensures CalmSent(AfterLoop(e, r, act).sent)
  {
    var q, q' := e.loc.sent, AfterLoop(e, r, act).sent;
    if q' != q {
      assert forall i :: 0 <= i < |q| ==> q'[..i] == q[..i];
      assert q'[..|q|] == q;
    }
  }

  lemma CalmByLink(s: Tcp, act: Act)
    requires CalmTcp(s) && CanRelay(s, OfLink(act)) && FaultFree(OfLink(act))
    ensures Calm(Relayed(s, OfLink(act)).ch.a, s.a)
  {
    InvNoOverrun(s.ch);
    LinkUndisturbed(s.ch, act);
    LinkAdvances(s, act);
  }

  /** Without faults the link only registers sessions and marks them done. */
  lemma LinkAdvances(s: Tcp, act: Act)
    requires Framed(s.ch) && !Overrun(s.ch) && CanRelay(s, OfLink(act)) && FaultFree(OfLink(act))
    requires CalmLife(s.ch.a, s.a) && LoopFits(s.ch.a.loc, s.a)
    ensures CalmLife(Apply(s.ch, act).a, s.a) && Apply(s.ch, act).a.loc.sent == s.ch.a.loc.sent
  {
  }

  lemma CalmKeptByReader(s: Tcp, act: ReaderAct)
    requires CalmTcp(s) && CanRelay(s, OfReader(act)) && FaultFree(OfReader(act))
    ensures Calm(Relayed(s, OfReader(act)).ch.a, Relayed(s, OfReader(act)).a)
  {
    CalmByReader(s.ch.a, s.a, act);
  }

  lemma CalmKeptByLoop(s: Tcp, act: LoopAct)
    requires CanRelay(s, OfLoop(act)) && FaultFree(OfLoop(act))
    requires LoopFits(s.ch.a.loc, s.a) && Calm(s.ch.a, s.a)
    requires act.TakeNext? ==> !s.ch.a.loc.q.recv[0].Close? && !s.ch.a.loc.q.recv[0].Error?
    ensures Calm(Relayed(s, OfLoop(act)).ch.a, Relayed(s, OfLoop(act)).a)
  {
    CalmByLoop(s.ch.a, s.a, act);
    CalmSentByLoop(s.ch.a, s.a, act);
  }

  lemma CalmKept(s: Tcp, act: RelayAct)
    requires CalmTcp(s) && CanRelay(s, act) && FaultFree(act)
    ensures Calm(Relayed(s, act).ch.a, Relayed(s, act).a)
  {
    match act
    case OfReader(ra) => CalmKeptByReader(s, ra);
    case OfLoop(la) =>
      if la.TakeNext? {
        NoCloseYet(s);
      }
      CalmKeptByLoop(s, la);
    case OfLink(a) => CalmByLink(s, a);
  }

  lemma CalmLeft(s: Tcp, act: RelayAct)
    requires CalmTcp(s) && CanRelay(s, act) && FaultFree(act)
    ensures CalmTcp(Relayed(s, act))
  {
    RelayedKeeps(s, act);
    CalmKept(s, act);
  }

  lemma TurnCalm(s: Tcp)
    requires CalmTcp(s)
    ensures CalmTcp(Turn(s))
  {
    FlipInv(s.ch);
  }

  lemma CalmStep(s: Tcp, st: RelayStep)
    requires CalmTcp(s) && CanDo(s, st) && FaultFree(st.act)
    ensures CalmTcp(DoRelay(s, st))
  {
    if st.side.Left? {
      CalmLeft(s, st.act);
    } else {
      TurnCalm(s);
      CalmLeft(Turn(s), st.act);
      TurnCalm(Relayed(Turn(s), st.act));
    }
  }

  // Every fault-free step makes progress.

  function ReaderWork(rd: Reader): nat {
    10 * |rd.unread|
    + (match rd.at
       case Want(_, _) => 9 + 6
       case Have(_, _) => 8 + 6
       case Exited => 0
       case _ => 6)
    + (if rd.result.NoEnd? then 0 else 5)
  }

  function LoopWork(at: LoopAt): nat {
    match at
    case Idle => 8
    case Selecting => 7
    case Writing(_) => 7 + 4
    case Acking => 7 + 3
    case SendingEof => 7 + 4
    case Leaving => 6
    case Closing => 5
    case Removing => 1
    case Gone => 0
  }

  function EndWork(e: End, r: Relay): nat {
    PortWork(e) + ReaderWork(r.rd) + LoopWork(r.lp.at)
  }

  /** An upper bound on the steps left. */
  function Work(s: Tcp): nat {
    EndWork(s.ch.a, s.a) + EndWork(s.ch.b, s.b) + WireSum(s.ch.ab) + WireSum(s.ch.ba)
  }

  lemma ReaderWorks(s: Tcp, act: ReaderAct)
    requires CanRelay(s, OfReader(act)) && FaultFree(OfReader(act))
    requires ReaderFits(s.ch.a.loc, s.a.rd) && CalmReader(s.a) && CalmLife(s.ch.a, s.a) && LoopFits(s.ch.a.loc, s.a)
    ensures Work(Relayed(s, OfReader(act))) < Work(s)
  {
    PushSums(s.ch.ab, s.ch.a.loc.hold);
  }

  predicate WritesFrame(act: LoopAct) { act.SendEof? || act.Acknowledge? || act.SendClose? }

  lemma LoopWorks(s: Tcp, act: LoopAct)
    requires CanRelay(s, OfLoop(act)) && FaultFree(OfLoop(act)) && !WritesFrame(act) && !act.TakeNext?
    requires CalmLife(s.ch.a, s.a) && LoopFits(s.ch.a.loc, s.a) && CalmReader(s.a) && ReaderFits(s.ch.a.loc, s.a.rd)
    ensures Work(Relayed(s, OfLoop(act))) < Work(s)
  {
  }

  lemma LoopTakeWorks(s: Tcp)
    requires CanRelay(s, OfLoop(TakeNext)) && s.ch.a.loc.q.recv[0].Queued()
    ensures Work(Relayed(s, OfLoop(TakeNext))) < Work(s)
  {
  }

  lemma AcknowledgeWorks(s: Tcp)
    requires CanRelay(s, OfLoop(Acknowledge))
    ensures Work(Relayed(s, OfLoop(Acknowledge))) < Work(s)
  {
    PushSums(s.ch.ab, Out(s.ch, AckData));
  }

  lemma LoopWriteWorks(s: Tcp, act: LoopAct)
    requires CanRelay(s, OfLoop(act)) && (act.SendEof? || act.SendClose?) && CalmLife(s.ch.a, s.a)
    ensures Work(Relayed(s, OfLoop(act))) < Work(s)
  {
    PushSums(s.ch.ab, Out(s.ch, LoopCall(s.ch.a.loc, act).act));
  }

  lemma RelayedWorks(s: Tcp, act: RelayAct)
    requires CalmTcp(s) && CanRelay(s, act) && FaultFree(act)
    ensures Work(Relayed(s, act)) < Work(s)
  {
    match act
    case OfReader(ra) => ReaderWorks(s, ra);
    case OfLoop(la) =>
      if la.Acknowledge? {
        AcknowledgeWorks(s);
      } else if WritesFrame(la) {
        LoopWriteWorks(s, la);
      } else if la.TakeNext? {
        assert Shaped(Flip(s.ch));
        LoopTakeWorks(s);
      } else {
        LoopWorks(s, la);
      }
    case OfLink(a) =>
      InvNoOverrun(s.ch);
      LinkWorks(s.ch, a);
  }

  lemma StepWorks(s: Tcp, st: RelayStep)
    requires CalmTcp(s) && CanDo(s, st) && FaultFree(st.act)
    ensures Work(DoRelay(s, st)) < Work(s)
  {
    FlipInv(s.ch);
    RelayedWorks(if st.side.Left? then s else Turn(s), st.act);
  }

  // No state but the final one is stuck.

  /** The socket was half-closed, and then closed. */
  predicate Shut(lp: Loop) { lp.writeClosed && lp.sockClosed }

  predicate AllGone(s: Tcp) {
    && s.a.lp.at.Gone? && s.b.lp.at.Gone? && Shut(s.a.lp) && Shut(s.b.lp)
    && s.ch.a.loc.life.Done? && s.ch.b.loc.life.Done?
    && s.ch.ab == s.ch.ba == []
  }

  /** The reader of end a waits for credit, or is through. */
  predicate ReaderWaits(s: Tcp) {
    || s.a.rd.at.NotStarted? || s.a.rd.at.Exited?
    || (s.a.rd.at.Want? && s.ch.a.loc.q.credit == 0)
  }

  lemma ReaderMoves(s: Tcp) returns (act: RelayAct)
    requires CalmTcp(s) && !ReaderWaits(s)
    ensures FaultFree(act) && CanRelay(s, act)
  {
    var rd := s.a.rd;
    if rd.at.Reading? {
      if |rd.unread| <= RELAY_BUFFER {
        act := OfReader(ReadSocket(|rd.unread|, EndOfInput));
      } else {
        act := OfReader(ReadSocket(RELAY_BUFFER, NoEnd));
      }
    } else if rd.at.Want? {
      assert !s.a.lp.at.Idle?;
      act := OfReader(GetCredit);
    } else {
      act := OfReader(WriteData);
    }
  }

  /** The loop of end a waits for the session to be opened, or in its select, or is
      through. */
  predicate LoopWaits(s: Tcp) {
    || (s.a.lp.at.Idle? && !Usable(s.ch.a.loc))
    || (s.a.lp.at.Selecting? && s.a.rd.result.NoEnd? && s.ch.a.loc.q.recv == [])
    || s.a.lp.at.Gone?
  }

  lemma LoopMoves(s: Tcp) returns (act: RelayAct)
    requires LoopFits(s.ch.a.loc, s.a) && !LoopWaits(s)
    ensures FaultFree(act) && CanRelay(s, act)
  {
    match s.a.lp.at
    case Idle => act := OfLoop(Dialed);
    case Selecting =>
      act := OfLoop(if s.a.rd.result.NoEnd? then TakeNext else TakeResult);
    case Writing(chunk) => act := OfLoop(WriteSocket(|chunk|, true));
    case Acking => act := OfLoop(Acknowledge);
    case SendingEof => act := OfLoop(SendEof);
    case Leaving => act := OfLoop(CloseSocket);
    case Closing => act := OfLoop(SendClose);
    case Removing => act := OfLoop(Remove);
  }

  predicate Quiet(s: Tcp) {
    !LinkBusy(s.ch) && ReaderWaits(s) && LoopWaits(s)
  }

  /** With both ends quiet, both loops run: every open has been answered. */
  lemma QuietStarted(s: Tcp)
    requires CalmTcp(s) && Quiet(s) && Quiet(Turn(s))
    ensures !s.a.lp.at.Idle?
  {
    assert Opening(s.ch) && Opening(Flip(s.ch));
  }

  /** With both ends quiet, no reader waits for credit: that would take a whole
      window of frames that are neither queued nor under way. */
  lemma QuietReaderDone(s: Tcp)
    requires CalmTcp(s) && Quiet(s) && Quiet(Turn(s))
    ensures s.a.rd.at.Exited?
  {
    QuietStarted(s);
    QuietStarted(Turn(s));
    if s.a.rd.at.Want? {
      if s.b.lp.at.Gone? {
        EofWasSent(s);
      } else {
        CreditIsUnderWay(s.ch);
      }
    }
  }

  /** With both ends quiet, each loop has seen the other side's EOF and left. */
  lemma QuietGone(s: Tcp)
    requires CalmTcp(s) && Quiet(s) && Quiet(Turn(s))
    ensures s.a.lp.at.Gone? && Shut(s.a.lp)
  {
    QuietStarted(s);
    QuietStarted(Turn(s));
    QuietReaderDone(s);
    FlipInv(s.ch);
    QuietReaderDone(Turn(s));
    if s.a.lp.at.Selecting? {
      EverythingTaken(Flip(s.ch));
    }
  }

  /** Nothing is ever stuck: short of the final state, a fault-free step is enabled. */
  lemma Progress(s: Tcp) returns (st: RelayStep)
    requires CalmTcp(s) && !AllGone(s)
    ensures CanDo(s, st) && FaultFree(st.act)
  {
    FlipInv(s.ch);
    if !Quiet(s) {
      var act := SideMoves(s);
      st := RelayStep(Left, act);
    } else if !Quiet(Turn(s)) {
      var act := SideMoves(Turn(s));
      st := RelayStep(Right, act);
    } else {
      QuietGone(s);
      QuietGone(Turn(s));
      assert false;
    }
  }

  lemma SideMoves(s: Tcp) returns (act: RelayAct)
    requires CalmTcp(s) && !Quiet(s)
    ensures CanRelay(s, act) && FaultFree(act)
  {
    if LinkBusy(s.ch) {
      var a := LinkMoves(s.ch);
      act := OfLink(a);
    } else if !ReaderWaits(s) {
      act := ReaderMoves(s);
    } else {
      act := LoopMoves(s);
    }
  }

  // Runs.

  predicate AllFaultFree(run: seq<RelayStep>) {
    forall i :: 0 <= i < |run| ==> FaultFree(run[i].act)
  }

  lemma {:induction false} CalmRun(s: Tcp, run: seq<RelayStep>)
    requires CalmTcp(s) && CanRunTcp(s, run) && AllFaultFree(run)
    ensures CalmTcp(RunTcp(s, run))
    ensures |run| + Work(RunTcp(s, run)) <= Work(s)
    decreases |run|
  {
    if run != [] {
      CalmStepWorks(s, run[0]);
      CalmRun(DoRelay(s, run[0]), run[1..]);
    }
  }

  lemma CalmStepWorks(s: Tcp, st: RelayStep)
    requires CalmTcp(s) && CanDo(s, st) && FaultFree(st.act)
    ensures CalmTcp(DoRelay(s, st)) && Work(DoRelay(s, st)) < Work(s)
  {
    CalmStep(s, st);
    StepWorks(s, st);
  }

  /** What a socket has delivered and what it has still to deliver never changes. */
  function Input(r: Relay): Bytes { r.rd.read + r.rd.unread }

  lemma InputKept(s: Tcp, act: RelayAct)
    requires CanRelay(s, act)
    ensures Input(Relayed(s, act).a) == Input(s.a)
  {
    if act.OfReader? && act.ra.ReadSocket? {
      var n, rd := act.ra.n, s.a.rd;
      assert rd.unread == rd.unread[..n] + rd.unread[n..];
    }
  }

  lemma {:induction false} InputsKept(s: Tcp, run: seq<RelayStep>)
    requires CanRunTcp(s, run)
    ensures Input(RunTcp(s, run).a) == Input(s.a) && Input(RunTcp(s, run).b) == Input(s.b)
    decreases |run|
  {
    if run != [] {
      InputKept(if run[0].side.Left? then s else Turn(s), run[0].act);
      InputsKept(DoRelay(s, run[0]), run[1..]);
    }
  }

  lemma GoneDelivered(t: Tcp)
    requires CalmTcp(t) && AllGone(t)
    ensures t.b.lp.written == Input(t.a)
  {
    InvHalfClose(t);
  }

  ghost predicate Stuck(t: Tcp) {
    forall st: RelayStep :: FaultFree(st.act) ==> !CanDo(t, st)
  }

  lemma StuckDelivered(t: Tcp)
    requires CalmTcp(t) && Stuck(t)
    ensures AllGone(t) && t.b.lp.written == Input(t.a) && t.a.lp.written == Input(t.b)
  {
    if !AllGone(t) {
      var st := Progress(t);
      assert false;
    }
    FlipInv(t.ch);
    GoneDelivered(t);
    GoneDelivered(Turn(t));
  }

  lemma CalmStart(e: End, r: Relay)
    requires e == End(FreshLocal(e.loc.opener), OPEN_PORT) && r == NewRelay(r.rd.unread)
    ensures Calm(e, r)
  {
  }

  lemma CalmInit(s: Tcp)
    requires TcpInit(s)
    ensures CalmTcp(s)
  {
    TcpInitInv(s);
    CalmStart(s.ch.a, s.a);
    CalmStart(s.ch.b, s.b);
  }

  lemma InitialWork(s: Tcp)
    requires TcpInit(s)
    ensures Work(s) == 10 * |s.a.rd.unread| + 10 * |s.b.rd.unread| + 36
  {
  }

  lemma InitialInput(r: Relay)
    requires r == NewRelay(r.rd.unread)
    ensures Input(r) == r.rd.unread
  {
  }

  /** Total correctness. A run without faults is no longer than a bound that is
      linear in the inputs, and when nothing more can happen both relays have
      returned, both sockets are half-closed and closed, both sessions are removed and
      done, the wires are empty, and each socket has been given exactly the other
      socket's input. */
  lemma TotalCorrectness(s: Tcp, run: seq<RelayStep>)
    requires TcpInit(s) && CanRunTcp(s, run) && AllFaultFree(run)
    ensures |run| <= 10 * |s.a.rd.unread| + 10 * |s.b.rd.unread| + 36
    ensures var t := RunTcp(s, run);
      Stuck(t) ==> AllGone(t) && t.b.lp.written == s.a.rd.unread && t.a.lp.written == s.b.rd.unread
  {
    CalmInit(s);
    InitialWork(s);
    InitialInput(s.a);
    InitialInput(s.b);
    CalmRun(s, run);
    InputsKept(s, run);
    if Stuck(RunTcp(s, run)) {
      StuckDelivered(RunTcp(s, run));
    }
  }
}
