/** One end of a session whose connection is closed and whose reader has stopped: every
    act of the link that changes anything uses something up. */
module Outage {
  import opened Frames
  import opened Window
  import opened Channel
  import opened ChannelInvariants
  import opened FlowControl
  import opened ChannelProgress

  predicate Down(p: Port) { p.wrBroken && p.rdStopped }

  lemma LinkFades(s: Channel, act: Act)
    requires Enabled(s, act) && LinkMay(s.a, act) && Down(s.a.port) && Framed(s) && !Overrun(s)
    ensures var t := Apply(s, act);
      && t.b == s.b && Down(t.a.port)
      && (t == s || PortWork(t.a) < PortWork(s.a))
  {
    if act.Deliver? {
      PushSums(s.a.loc.q.recv, s.a.port.hand);
    }
  }

  /** The session is over, or has never come to be. */
  predicate SessionOver(l: Local) { l.life.Done? || l.life.Refused? || (l.life.Absent? && !l.opener) }

  /** The link can bring a session that is not over nearer its end. */
  lemma LinkEnds(s: Channel) returns (act: Act)
    requires Down(s.a.port) && !SessionOver(s.a.loc) && (s.a.loc.life.Refused? ==> !s.a.loc.opener)
    ensures Enabled(s, act) && LinkMay(s.a, act) && Apply(s, act) != s
  {
    match s.a.loc.life
    case Absent => act := Register;
    case Live => act := RemoveFromMap;
    case Deleted => act := MarkDone;
  }

  const QUEUE_WORK: nat := 5 * SEND_WINDOW + RECV_SLACK

  lemma {:induction false} QueueSumCounts(q: seq<Frame>)
    ensures QueueSum(q) <= |q| + 4 * DataCount(q)
  {
    if q != [] {
      QueueSumCounts(q[1..]);
    }
  }

  /** What the link of one end has left to do is bounded by the size of its queue. */
  lemma PortWorkBounded(s: Channel)
    requires Inv(s) && s.b.loc.ctl <= RECV_SLACK
    ensures PortWork(s.a) <= QUEUE_WORK + 11
  {
    InvNoOverrun(s);
    QueueSumCounts(s.a.loc.q.recv);
  }
}

/** Two TCP relays whose connection is gone. */
module TcpOutage {
  import opened Frames
  import opened Window
  import opened Channel
  import opened ChannelInvariants
  import opened FlowControl
  import opened ChannelProgress
  import opened Outage
  import opened TcpRelay
  import opened TcpSafety
  import opened TcpTermination

  /** The reader's next send fails, whatever it has still to read. */
  function ReaderLeft(rd: Reader): nat {
    (match rd.at
     case NotStarted => 8
     case Reading => 8
     case Want(_, _) => 7
     case Have(_, _) => 6
     case Exited => 0)
    + (if rd.result.NoEnd? then 0 else 5)
  }

  function EndLeft(e: End, r: Relay): nat { PortWork(e) + ReaderLeft(r.rd) + LoopWork(r.lp.at) }

  function StepsLeft(s: Tcp): nat { EndLeft(s.ch.a, s.a) + EndLeft(s.ch.b, s.b) }

  predicate Cut(s: Tcp) { TcpInv(s) && Down(s.ch.a.port) && Down(s.ch.b.port) }

  lemma ReaderFades(s: Tcp, act: ReaderAct)
    requires CanRelay(s, OfReader(act)) && Down(s.ch.a.port) && ReaderFits(s.ch.a.loc, s.a.rd)
    ensures var t := Relayed(s, OfReader(act));
      t.ch.b == s.ch.b && t.ch.a.port == s.ch.a.port && EndLeft(t.ch.a, t.a) < EndLeft(s.ch.a, s.a)
  {
  }

  lemma LoopFades(s: Tcp, act: LoopAct)
    requires CanRelay(s, OfLoop(act)) && Down(s.ch.a.port) && !act.TakeNext?
    requires ReaderFits(s.ch.a.loc, s.a.rd) && LoopFits(s.ch.a.loc, s.a)
    ensures var t := Relayed(s, OfLoop(act));
      t.ch.b == s.ch.b && t.ch.a.port == s.ch.a.port && EndLeft(t.ch.a, t.a) < EndLeft(s.ch.a, s.a)
  {
  }

  lemma TakingFades(s: Tcp)
    requires CanRelay(s, OfLoop(TakeNext))
    ensures var t := Relayed(s, OfLoop(TakeNext));
      t.ch.b == s.ch.b && t.ch.a.port == s.ch.a.port && EndLeft(t.ch.a, t.a) < EndLeft(s.ch.a, s.a)
  {
  }

  lemma RelayFades(s: Tcp, act: RelayAct)
    requires Cut(s) && CanRelay(s, act)
    ensures var t := Relayed(s, act);
      t.ch.b == s.ch.b && t.b == s.b && Down(t.ch.a.port) && (t == s || EndLeft(t.ch.a, t.a) < EndLeft(s.ch.a, s.a))
  {
    match act
    case OfReader(ra) => ReaderFades(s, ra);
    case OfLoop(la) =>
      if la.TakeNext? {
        TakingFades(s);
      } else {
        LoopFades(s, la);
      }
    case OfLink(a) =>
      InvNoOverrun(s.ch);
      LinkFades(s.ch, a);
  }

  lemma StepFades(s: Tcp, st: RelayStep)
    requires Cut(s) && CanDo(s, st)
    ensures Cut(DoRelay(s, st)) && (DoRelay(s, st) == s || StepsLeft(DoRelay(s, st)) < StepsLeft(s))
  {
    TcpStepKeeps(s, st);
    if st.side.Left? {
      RelayFades(s, st.act);
    } else {
      FlipInv(s.ch);
      RelayFades(Turn(s), st.act);
      assert Turn(Turn(s)) == s;
    }
  }

  /** Every step of the run changes something. */
  predicate Busy(s: Tcp, run: seq<RelayStep>)
    requires CanRunTcp(s, run)
    decreases |run|
  {
    run == [] || (DoRelay(s, run[0]) != s && Busy(DoRelay(s, run[0]), run[1..]))
  }

  lemma {:induction false} BusyRun(s: Tcp, run: seq<RelayStep>)
    requires Cut(s) && CanRunTcp(s, run) && Busy(s, run)
    ensures Cut(RunTcp(s, run)) && |run| + StepsLeft(RunTcp(s, run)) <= StepsLeft(s)
    decreases |run|
  {
    if run != [] {
      StepFades(s, run[0]);
      BusyRun(DoRelay(s, run[0]), run[1..]);
    }
  }

  /** Relay and reader have returned, or were never started, and the session is over. */
  predicate Returned(e: End, r: Relay) {
    && (r.lp.at.Gone? || (r.lp.at.Idle? && !Usable(e.loc)))
    && (r.rd.at.Exited? || r.rd.at.NotStarted?)
    && (r.lp.at.Gone? && r.rd.at.Exited? ==> r.lp.sockClosed)
    && SessionOver(e.loc)
  }

  lemma ReturnsNext(s: Tcp) returns (st: RelayStep)
    requires Cut(s) && !Returned(s.ch.a, s.a)
    ensures CanDo(s, st) && DoRelay(s, st) != s
  {
    if !SessionOver(s.ch.a.loc) {
      var a := LinkEnds(s.ch);
      st := RelayStep(Left, OfLink(a));
    } else if !(s.a.rd.at.Exited? || s.a.rd.at.NotStarted?) {
      ReaderReturns(s);
      st := RelayStep(Left, OfReader(ReaderNextAct(s.a.rd)));
    } else {
      LoopReturns(s);
      st := RelayStep(Left, OfLoop(LoopNextAct(s.a.lp)));
    }
  }

  lemma ReaderReturns(s: Tcp)
    requires SessionOver(s.ch.a.loc) && ReaderFits(s.ch.a.loc, s.a.rd) && LoopFits(s.ch.a.loc, s.a)
    requires !(s.a.rd.at.Exited? || s.a.rd.at.NotStarted?)
    ensures var act := OfReader(ReaderNextAct(s.a.rd));
      CanRelay(s, act) && Relayed(s, act).a.rd != s.a.rd
  {
  }

  lemma LoopReturns(s: Tcp)
    requires SessionOver(s.ch.a.loc) && LoopFits(s.ch.a.loc, s.a)
    requires !(s.a.lp.at.Gone? || (s.a.lp.at.Idle? && !Usable(s.ch.a.loc)))
    ensures var act := OfLoop(LoopNextAct(s.a.lp));
      CanRelay(s, act) && Relayed(s, act).a.lp != s.a.lp
  {
  }

  function ReaderNextAct(rd: Reader): ReaderAct {
    match rd.at
    case Reading => ReadSocket(0, ReadError)
    case Want(_, _) => SeeClosed
    case _ => WriteData
  }

  function LoopNextAct(lp: Loop): LoopAct {
    match lp.at
    case Idle => Dialed
    case Selecting => SeeDone
    case Writing(chunk) => WriteSocket(0, false)
    case Acking => Acknowledge
    case SendingEof => SendEof
    case Leaving => CloseSocket
    case Closing => SendClose
    case _ => Remove
  }

  ghost predicate Still(s: Tcp) {
    forall st: RelayStep :: CanDo(s, st) ==> DoRelay(s, st) == s
  }

  lemma StillReturned(s: Tcp)
    requires Cut(s) && Still(s)
    ensures Returned(s.ch.a, s.a)
  {
    if !Returned(s.ch.a, s.a) {
      var st := ReturnsNext(s);
      assert false;
    }
  }

  lemma TurnStill(s: Tcp)
    requires Cut(s) && Still(s)
    ensures Cut(Turn(s)) && Still(Turn(s))
  {
    FlipInv(s.ch);
    forall st: RelayStep | CanDo(Turn(s), st)
      ensures DoRelay(Turn(s), st) == Turn(s)
    {
      TurnStep(s, st);
      var other := RelayStep(if st.side.Left? then Right else Left, st.act);
      assert DoRelay(s, other) == s;
    }
  }

  lemma TurnStep(s: Tcp, st: RelayStep)
    requires CanDo(Turn(s), st)
    ensures var other := RelayStep(if st.side.Left? then Right else Left, st.act);
      CanDo(s, other) && DoRelay(s, other) == Turn(DoRelay(Turn(s), st))
  {
    assert Turn(Turn(s)) == s;
  }

  lemma FewStepsLeft(s: Tcp)
    requires Cut(s)
    ensures StepsLeft(s) <= 400
  {
    FlipInv(s.ch);
    PortWorkBounded(s.ch);
    PortWorkBounded(Flip(s.ch));
  }

  /** When a connection is lost, the relays on it end. From the moment that both ends
      have closed it and stopped reading, no more than 400 steps change anything,
      whatever is unread, queued, or blocked at that moment, and when none does any
      more both relays and their readers have returned and both sessions are done. */
  lemma OutageEndsRelays(s: Tcp, run: seq<RelayStep>, rest: seq<RelayStep>)
    requires TcpInit(s) && CanRunTcp(s, run)
    requires var t := RunTcp(s, run); Down(t.ch.a.port) && Down(t.ch.b.port) && CanRunTcp(t, rest) && Busy(t, rest)
    ensures |rest| <= 400
    ensures var u := RunTcp(RunTcp(s, run), rest);
      Still(u) ==> Returned(u.ch.a, u.a) && Returned(u.ch.b, u.b)
  {
    TcpReached(s, run);
    FewStepsLeft(RunTcp(s, run));
    BusyRun(RunTcp(s, run), rest);
    var u := RunTcp(RunTcp(s, run), rest);
    if Still(u) {
      StillReturned(u);
      TurnStill(u);
      StillReturned(Turn(u));
    }
  }
}

/** Two WebSocket relays whose connection is gone. */
module WsOutage {
  import opened Frames
  import opened Window
  import opened Channel
  import opened ChannelInvariants
  import opened FlowControl
  import opened ChannelProgress
  import opened Outage
  import opened WsRelay
  import opened WsSafety
  import opened WsTermination

  /** The reader's next send fails, whatever else is said to it. */
  function ReaderLeft(rd: Reader): nat {
    (match rd.at
     case NotStarted => 8
     case Reading => 8
     case Want(_) => 7
     case Have(_) => 6
     case Exited => 0)
    + (if rd.result.NoEnd? then 0 else 5)
  }

  function EndLeft(e: End, r: Relay): nat { PortWork(e) + ReaderLeft(r.rd) + LoopWork(r.lp.at) }

  function StepsLeft(s: Ws): nat { EndLeft(s.ch.a, s.a) + EndLeft(s.ch.b, s.b) }

  predicate Cut(s: Ws) { WsInv(s) && Down(s.ch.a.port) && Down(s.ch.b.port) }

  lemma ReaderFades(s: Ws, act: ReaderAct)
    requires CanRelay(s, OfReader(act)) && Down(s.ch.a.port) && ReaderFits(s.ch.a.loc, s.a.rd)
    ensures var t := Relayed(s, OfReader(act));
      t.ch.b == s.ch.b && t.ch.a.port == s.ch.a.port && EndLeft(t.ch.a, t.a) < EndLeft(s.ch.a, s.a)
  {
  }

  lemma SpeakingFades(s: Ws, act: LoopAct)
    requires CanRelay(s, OfLoop(act)) && Down(s.ch.a.port) && Speaks(act)
    ensures var t := Relayed(s, OfLoop(act));
      t.ch.b == s.ch.b && t.ch.a.port == s.ch.a.port && EndLeft(t.ch.a, t.a) < EndLeft(s.ch.a, s.a)
  {
  }

  lemma LoopFades(s: Ws, act: LoopAct)
    requires CanRelay(s, OfLoop(act)) && Down(s.ch.a.port) && !act.TakeNext? && !Speaks(act)
    requires ReaderFits(s.ch.a.loc, s.a.rd) && LoopFits(s.ch.a.loc, s.a)
    ensures var t := Relayed(s, OfLoop(act));
      t.ch.b == s.ch.b && t.ch.a.port == s.ch.a.port && EndLeft(t.ch.a, t.a) < EndLeft(s.ch.a, s.a)
  {
  }

  lemma TakingFades(s: Ws)
    requires CanRelay(s, OfLoop(TakeNext))
    ensures var t := Relayed(s, OfLoop(TakeNext));
      t.ch.b == s.ch.b && t.ch.a.port == s.ch.a.port && EndLeft(t.ch.a, t.a) < EndLeft(s.ch.a, s.a)
  {
  }

  lemma RelayFades(s: Ws, act: RelayAct)
    requires Cut(s) && CanRelay(s, act)
    ensures var t := Relayed(s, act);
      t.ch.b == s.ch.b && t.b == s.b && Down(t.ch.a.port) && (t == s || EndLeft(t.ch.a, t.a) < EndLeft(s.ch.a, s.a))
  {
    match act
    case OfReader(ra) => ReaderFades(s, ra);
    case OfLoop(la) =>
      if la.TakeNext? {
        TakingFades(s);
      } else if Speaks(la) {
        SpeakingFades(s, la);
      } else {
        LoopFades(s, la);
      }
    case OfLink(a) =>
      InvNoOverrun(s.ch);
      LinkFades(s.ch, a);
  }

  lemma StepFades(s: Ws, st: RelayStep)
    requires Cut(s) && CanDo(s, st)
    ensures Cut(DoRelay(s, st)) && (DoRelay(s, st) == s || StepsLeft(DoRelay(s, st)) < StepsLeft(s))
  {
    WsStepKeeps(s, st);
    if st.side.Left? {
      RelayFades(s, st.act);
    } else {
      FlipInv(s.ch);
      RelayFades(Turn(s), st.act);
      assert Turn(Turn(s)) == s;
    }
  }

  /** Every step of the run changes something. */
  predicate Busy(s: Ws, run: seq<RelayStep>)
    requires CanRunWs(s, run)
    decreases |run|
  {
    run == [] || (DoRelay(s, run[0]) != s && Busy(DoRelay(s, run[0]), run[1..]))
  }

  lemma {:induction false} BusyRun(s: Ws, run: seq<RelayStep>)
    requires Cut(s) && CanRunWs(s, run) && Busy(s, run)
    ensures Cut(RunWs(s, run)) && |run| + StepsLeft(RunWs(s, run)) <= StepsLeft(s)
    decreases |run|
  {
    if run != [] {
      StepFades(s, run[0]);
      BusyRun(DoRelay(s, run[0]), run[1..]);
    }
  }

  /** Relay and reader have returned, or were never started, and the session is over. */
  predicate Returned(e: End, r: Relay) {
    && (r.lp.at.Gone? || (r.lp.at.Idle? && !Usable(e.loc)))
    && (r.rd.at.Exited? || r.rd.at.NotStarted?)
    && (r.lp.at.Gone? && r.rd.at.Exited? ==> r.lp.sockClosed)
    && SessionOver(e.loc)
  }

  lemma ReturnsNext(s: Ws) returns (st: RelayStep)
    requires Cut(s) && !Returned(s.ch.a, s.a)
    ensures CanDo(s, st) && DoRelay(s, st) != s
  {
    if !SessionOver(s.ch.a.loc) {
      var a := LinkEnds(s.ch);
      st := RelayStep(Left, OfLink(a));
    } else if !(s.a.rd.at.Exited? || s.a.rd.at.NotStarted?) {
      ReaderReturns(s);
      st := RelayStep(Left, OfReader(ReaderNextAct(s.a.rd)));
    } else {
      LoopReturns(s);
      st := RelayStep(Left, OfLoop(LoopNextAct(s.a.lp)));
    }
  }

  lemma ReaderReturns(s: Ws)
    requires SessionOver(s.ch.a.loc) && ReaderFits(s.ch.a.loc, s.a.rd) && LoopFits(s.ch.a.loc, s.a)
    requires !(s.a.rd.at.Exited? || s.a.rd.at.NotStarted?)
    ensures var act := OfReader(ReaderNextAct(s.a.rd));
      CanRelay(s, act) && Relayed(s, act).a.rd != s.a.rd
  {
  }

  lemma LoopReturns(s: Ws)
    requires SessionOver(s.ch.a.loc) && LoopFits(s.ch.a.loc, s.a) && ReaderEnds(s.a)
    requires !(s.a.lp.at.Gone? || (s.a.lp.at.Idle? && !Usable(s.ch.a.loc)))
    ensures var act := OfLoop(LoopNextAct(s.a.lp));
      CanRelay(s, act) && Relayed(s, act).a.lp != s.a.lp
  {
  }

  function ReaderNextAct(rd: Reader): ReaderAct {
    match rd.at
    case Reading => ReadFails(ReadError)
    case Want(_) => SeeClosed
    case _ => WriteData
  }

  function LoopNextAct(lp: Loop): LoopAct {
    match lp.at
    case Idle => Dialed
    case Selecting => SeeDone
    case Writing(_) => WriteSocket(false)
    case Acking => Acknowledge
    case RelayingCode => RelayCode
    case RemovingEarly => RemoveEarly
    case TellingSocket(_) => TellSocket
    case Leaving => CloseSocket
    case Closing => SendClose
    case _ => Remove
  }

  ghost predicate Still(s: Ws) {
    forall st: RelayStep :: CanDo(s, st) ==> DoRelay(s, st) == s
  }

  lemma StillReturned(s: Ws)
    requires Cut(s) && Still(s)
    ensures Returned(s.ch.a, s.a)
  {
    if !Returned(s.ch.a, s.a) {
      var st := ReturnsNext(s);
      assert false;
    }
  }

  lemma TurnStill(s: Ws)
    requires Cut(s) && Still(s)
    ensures Cut(Turn(s)) && Still(Turn(s))
  {
    FlipInv(s.ch);
    forall st: RelayStep | CanDo(Turn(s), st)
      ensures DoRelay(Turn(s), st) == Turn(s)
    {
      TurnStep(s, st);
      var other := RelayStep(if st.side.Left? then Right else Left, st.act);
      assert DoRelay(s, other) == s;
    }
  }

  lemma TurnStep(s: Ws, st: RelayStep)
    requires CanDo(Turn(s), st)
    ensures var other := RelayStep(if st.side.Left? then Right else Left, st.act);
      CanDo(s, other) && DoRelay(s, other) == Turn(DoRelay(Turn(s), st))
  {
    assert Turn(Turn(s)) == s;
  }

  lemma FewStepsLeft(s: Ws)
    requires Cut(s)
    ensures StepsLeft(s) <= 400
  {
    FlipInv(s.ch);
    PortWorkBounded(s.ch);
    PortWorkBounded(Flip(s.ch));
  }

  /** The same of WebSocket relays, however many messages are still to come. */
  lemma OutageEndsRelays(s: Ws, run: seq<RelayStep>, rest: seq<RelayStep>)
    requires WsInit(s) && CanRunWs(s, run)
    requires var t := RunWs(s, run); Down(t.ch.a.port) && Down(t.ch.b.port) && CanRunWs(t, rest) && Busy(t, rest)
    ensures |rest| <= 400
    ensures var u := RunWs(RunWs(s, run), rest);
      Still(u) ==> Returned(u.ch.a, u.a) && Returned(u.ch.b, u.b)
  {
    WsReached(s, run);
    FewStepsLeft(RunWs(s, run));
    BusyRun(RunWs(s, run), rest);
    var u := RunWs(RunWs(s, run), rest);
    if Still(u) {
      StillReturned(u);
      TurnStill(u);
      StillReturned(Turn(u));
    }
  }
}

/** A streamed response whose connection is gone. */
module HttpOutage {
  import opened Frames
  import opened Window
  import opened Channel
  import opened ChannelInvariants
  import opened FlowControl
  import opened ChannelProgress
  import opened Outage
  import opened HttpStream
  import opened HttpStreamSafety

  function PumpLeft(p: Pump): nat {
    match p.at
    case Waiting => 9
    case Reading => 8
    case Want(_, _) => 7
    case Have(_, _) => 6
    case SendingEof => 5
    case Closing => 4
    case Failing => 4
    case Removing => 1
    case Finished => 0
  }

  function ServeLeft(v: Serve): nat {
    (match v.at
     case Unclaimed => 8
     case Found => 7
     case Selecting => 6
     case Writing(_) => 10
     case Acking => 9
     case ClosingSession => 5
     case RemovingSession => 1
     case Gone => 0)
    + (match v.timer
       case Armed => 3
       case Decided => 2
       case Discarding => 1
       case _ => 0)
  }

  function StepsLeft(s: Http): nat {
    PortWork(s.ch.a) + PortWork(s.ch.b) + PumpLeft(s.pump) + ServeLeft(s.serve)
  }

  predicate Cut(s: Http) {
    HttpInv(s) && s.ch.a.loc.opener && Down(s.ch.a.port) && Down(s.ch.b.port)
  }

  lemma PumpFades(s: Http, act: PumpAct)
    requires CanHttp(s, OfPump(act)) && Down(s.ch.a.port)
    ensures var t := DoHttp(s, OfPump(act));
      t.ch.b == s.ch.b && t.ch.a.port == s.ch.a.port && StepsLeft(t) < StepsLeft(s)
  {
  }

  lemma TakingFades(s: Http)
    requires CanHttp(s, OfServe(TakeNext)) && s.ch.b.loc.q.recv[0].Queued()
    ensures var t := DoHttp(s, OfServe(TakeNext));
      t.ch.a == s.ch.a && t.ch.b.port == s.ch.b.port && StepsLeft(t) < StepsLeft(s)
  {
  }

  lemma ServeFades(s: Http, act: ServeAct)
    requires CanHttp(s, OfServe(act)) && Down(s.ch.b.port) && !act.TakeNext?
    ensures var t := DoHttp(s, OfServe(act));
      t.ch.a == s.ch.a && t.ch.b.port == s.ch.b.port && StepsLeft(t) < StepsLeft(s)
  {
  }

  lemma ConnectorFades(s: Http, act: Act)
    requires Cut(s) && CanHttp(s, OfLink(Left, act))
    ensures var t := DoHttp(s, OfLink(Left, act));
      Down(t.ch.a.port) && t.ch.b == s.ch.b && (t == s || StepsLeft(t) < StepsLeft(s))
  {
    InvNoOverrun(s.ch);
    LinkFades(s.ch, act);
  }

  lemma EdgeFades(s: Http, act: Act)
    requires Cut(s) && CanHttp(s, OfLink(Right, act))
    ensures var t := DoHttp(s, OfLink(Right, act));
      Down(t.ch.b.port) && t.ch.a == s.ch.a && (t == s || StepsLeft(t) < StepsLeft(s))
  {
    FlipInv(s.ch);
    InvNoOverrun(Flip(s.ch));
    LinkFades(Flip(s.ch), act);
    assert Flip(Flip(s.ch)) == s.ch;
  }

  predicate Fades(s: Http, t: Http) {
    Down(t.ch.a.port) && Down(t.ch.b.port) && (t == s || StepsLeft(t) < StepsLeft(s))
  }

  lemma EdgeUserFades(s: Http, act: ServeAct)
    requires Cut(s) && CanHttp(s, OfServe(act))
    ensures Fades(s, DoHttp(s, OfServe(act)))
  {
    if act.TakeNext? {
      assert Shaped(s.ch);
      TakingFades(s);
    } else {
      ServeFades(s, act);
    }
  }

  lemma LinkStepFades(s: Http, side: Side, act: Act)
    requires Cut(s) && CanHttp(s, OfLink(side, act))
    ensures Fades(s, DoHttp(s, OfLink(side, act)))
  {
    if side.Left? {
      ConnectorFades(s, act);
    } else {
      EdgeFades(s, act);
    }
  }

  lemma StepFades(s: Http, st: HttpStep)
    requires Cut(s) && CanHttp(s, st)
    ensures Cut(DoHttp(s, st)) && (DoHttp(s, st) == s || StepsLeft(DoHttp(s, st)) < StepsLeft(s))
  {
    HttpStepKeeps(s, st);
    match st
    case OfPump(pa) => PumpFades(s, pa);
    case OfServe(sa) => EdgeUserFades(s, sa);
    case OfLink(side, act) => LinkStepFades(s, side, act);
  }

  /** Every step of the run changes something. */
  predicate Busy(s: Http, run: seq<HttpStep>)
    requires CanRunHttp(s, run)
    decreases |run|
  {
    run == [] || (DoHttp(s, run[0]) != s && Busy(DoHttp(s, run[0]), run[1..]))
  }

  lemma {:induction false} BusyRun(s: Http, run: seq<HttpStep>)
    requires Cut(s) && CanRunHttp(s, run) && Busy(s, run)
    ensures Cut(RunHttp(s, run)) && |run| + StepsLeft(RunHttp(s, run)) <= StepsLeft(s)
    decreases |run|
  {
    if run != [] {
      StepFades(s, run[0]);
      BusyRun(DoHttp(s, run[0]), run[1..]);
    }
  }

  /** The pump has returned, or was never started. */
  predicate PumpReturned(s: Http) {
    s.pump.at.Finished? || (s.pump.at.Waiting? && !Usable(s.ch.a.loc))
  }

  /** The handler has returned, or finds no session; the timer has nothing more to do. */
  predicate ServeReturned(s: Http) {
    && (s.serve.at.Gone? || s.serve.at.Unclaimed?)
    && (s.serve.timer.StoodDown? || s.serve.timer.Discarded? || (s.serve.timer.Armed? && !Usable(s.ch.b.loc)))
  }

  predicate Returned(s: Http) {
    PumpReturned(s) && ServeReturned(s) && SessionOver(s.ch.a.loc) && SessionOver(s.ch.b.loc)
  }

  function PumpNextAct(p: Pump): PumpAct {
    match p.at
    case Waiting => PumpAct.Started
    case Reading => ReadBody(0, BodyError)
    case Want(_, _) => SeeClosed
    case Have(_, _) => WriteData
    case SendingEof => SendEof
    case Closing => SendClose
    case Failing => SendFailure
    case _ => Remove
  }

  function ServeNextAct(v: Serve): ServeAct {
    match v.at
    case Found => Claim
    case Selecting => SeeDone
    case Writing(_) => WriteClient(0, false)
    case Acking => Acknowledge
    case ClosingSession => DeferClose
    case RemovingSession => DeferRemove
    case _ => if v.timer.Armed? then TimerFires else if v.timer.Decided? then TimerReports else TimerRemoves
  }

  lemma PumpReturns(s: Http)
    requires !PumpReturned(s) && SessionOver(s.ch.a.loc) && PumpFits(s.ch.a, s.pump) && s.ch.a.loc.opener
    ensures CanHttp(s, OfPump(PumpNextAct(s.pump))) && DoHttp(s, OfPump(PumpNextAct(s.pump))).pump != s.pump
  {
  }

  lemma ServeReturns(s: Http)
    requires !ServeReturned(s) && SessionOver(s.ch.b.loc) && ServeFits(s.ch.b.loc, s.serve) && !s.ch.b.loc.opener
    ensures CanHttp(s, OfServe(ServeNextAct(s.serve))) && DoHttp(s, OfServe(ServeNextAct(s.serve))).serve != s.serve
  {
  }

  lemma ReturnsNext(s: Http) returns (st: HttpStep)
    requires Cut(s) && !Returned(s)
    ensures CanHttp(s, st) && DoHttp(s, st) != s
  {
    InvOpener(s);
    if !SessionOver(s.ch.a.loc) {
      var act := LinkEnds(s.ch);
      st := OfLink(Left, act);
    } else if !SessionOver(s.ch.b.loc) {
      var act := LinkEnds(Flip(s.ch));
      st := OfLink(Right, act);
    } else if !PumpReturned(s) {
      PumpReturns(s);
      st := OfPump(PumpNextAct(s.pump));
    } else {
      ServeReturns(s);
      st := OfServe(ServeNextAct(s.serve));
    }
  }

  ghost predicate Still(s: Http) {
    forall st: HttpStep :: CanHttp(s, st) ==> DoHttp(s, st) == s
  }

  lemma StillReturned(s: Http)
    requires Cut(s) && Still(s)
    ensures Returned(s)
  {
    if !Returned(s) {
      var st := ReturnsNext(s);
      assert false;
    }
  }

  lemma FewStepsLeft(s: Http)
    requires Cut(s)
    ensures StepsLeft(s) <= 400
  {
    FlipInv(s.ch);
    PortWorkBounded(s.ch);
    PortWorkBounded(Flip(s.ch));
  }

  /** The same of a streamed response: a pump that was stranded is freed, too. */
  lemma OutageEndsStream(s: Http, run: seq<HttpStep>, rest: seq<HttpStep>)
    requires HttpInit(s) && CanRunHttp(s, run)
    requires var t := RunHttp(s, run); Down(t.ch.a.port) && Down(t.ch.b.port) && CanRunHttp(t, rest) && Busy(t, rest)
    ensures |rest| <= 400
    ensures var u := RunHttp(RunHttp(s, run), rest); Still(u) ==> Returned(u)
  {
    HttpReached(s, run);
    FewStepsLeft(RunHttp(s, run));
    BusyRun(RunHttp(s, run), rest);
    var u := RunHttp(RunHttp(s, run), rest);
    if Still(u) {
      StillReturned(u);
    }
  }
}
