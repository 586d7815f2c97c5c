/** What RelayConn does to its session is a run of the session, whose frames are all
    valid and whose data frames are no larger than the read buffer. */
module TcpTrace {
  import opened Frames
  import opened Window
  import opened Channel
  import opened ChannelInvariants
  import opened ByteBounds
  import opened Envelope
  import opened TcpRelay

  /** The session operation a step performs, if any. */
  function TraceStep(s: Tcp, st: RelayStep): seq<Step>
    requires CanDo(s, st)
  {
    var t := if st.side.Left? then s else Turn(s);
    var call := Lower(t.ch.a, t.a, st.act);
    if call.Call? then [Step(st.side, call.act)] else []
  }

  function Trace(s: Tcp, run: seq<RelayStep>): seq<Step>
    requires CanRunTcp(s, run)
    decreases |run|
  {
    if run == [] then [] else TraceStep(s, run[0]) + Trace(DoRelay(s, run[0]), run[1..])
  }

  predicate SmallChunk(rd: Reader) {
    rd.at.Want? || rd.at.Have? ==> |rd.at.chunk| <= RELAY_BUFFER
  }

  predicate Proper(run: seq<Step>) { FairRun(run) && SmallRun(run, RELAY_BUFFER) }

  lemma StepTraces(s: Tcp, st: RelayStep)
    requires CanDo(s, st)
    ensures CanRun(s.ch, TraceStep(s, st)) && Run(s.ch, TraceStep(s, st)) == DoRelay(s, st).ch
  {
  }

  lemma ReaderProper(rd: Reader, act: ReaderAct)
    requires SmallChunk(rd) && (act.GetCredit? ==> rd.at.Want?)
    ensures var call := ReaderCall(rd, act);
      call.Call? ==> FairAct(call.act) && SmallAct(call.act, RELAY_BUFFER)
  {
  }

  lemma LoopProper(l: Local, act: LoopAct)
    ensures var call := LoopCall(l, act);
      call.Call? ==> FairAct(call.act) && SmallAct(call.act, RELAY_BUFFER)
  {
    FixedTexts();
  }

  lemma LinkProper(e: End, act: Act)
    requires LinkMay(e, act)
    ensures FairAct(act) && SmallAct(act, RELAY_BUFFER)
  {
  }

  lemma StepProper(s: Tcp, st: RelayStep)
    requires CanDo(s, st) && SmallChunk(s.a.rd) && SmallChunk(s.b.rd)
    ensures Proper(TraceStep(s, st))
  {
    var t := if st.side.Left? then s else Turn(s);
    match st.act
    case OfReader(ra) => ReaderProper(t.a.rd, ra);
    case OfLoop(la) => LoopProper(t.ch.a.loc, la);
    case OfLink(a) => LinkProper(t.ch.a, a);
  }

  lemma StaysSmall(s: Tcp, act: RelayAct)
    requires CanRelay(s, act) && SmallChunk(s.a.rd)
    ensures SmallChunk(Relayed(s, act).a.rd)
  {
  }

  lemma {:induction false} RunTraces(s: Tcp, run: seq<RelayStep>)
    requires CanRunTcp(s, run) && SmallChunk(s.a.rd) && SmallChunk(s.b.rd)
    ensures var trace := Trace(s, run);
      CanRun(s.ch, trace) && Run(s.ch, trace) == RunTcp(s, run).ch && Proper(trace)
    decreases |run|
  {
    if run != [] {
      var s' := DoRelay(s, run[0]);
      StepProper(s, run[0]);
      StaysSmall(if run[0].side.Left? then s else Turn(s), run[0].act);
      StepTraces(s, run[0]);
      RunTraces(s', run[1..]);
      RunAppend(s.ch, TraceStep(s, run[0]), Trace(s', run[1..]));
    }
  }

  /** No write of a TCP relay, or of its session, is refused for its content. */
  lemma TcpFramesValidate(s: Tcp, run: seq<RelayStep>, id: string)
    requires TcpInit(s) && CanRunTcp(s, run) && ValidToken(id)
    ensures FairRun(Trace(s, run))
    ensures var t := RunTcp(s, run).ch; AllValidate(id, t.ab) && AllValidate(id, t.ba)
  {
    RunTraces(s, run);
    EveryFrameValidates(s.ch, Trace(s, run), id);
  }

  /** A relayed TCP connection never has more than a window of full read buffers, one
      mebibyte, unacknowledged in a direction: held by the sender, on the wire, in
      hand, queued, or being written. */
  lemma TcpBytesBounded(s: Tcp, run: seq<RelayStep>)
    requires TcpInit(s) && CanRunTcp(s, run)
    ensures var t := RunTcp(s, run).ch;
      && |Payload(Unacknowledged(t))| <= RELAY_BUFFER * SEND_WINDOW == 1024 * 1024
      && |Payload(Unacknowledged(Flip(t)))| <= RELAY_BUFFER * SEND_WINDOW
  {
    RunTraces(s, run);
    UnacknowledgedBytesBounded(s.ch, Trace(s, run), RELAY_BUFFER);
  }
}

/** The same of RelayWebSocket, whose messages have no size limit. */
module WsTrace {
  import opened Frames
  import opened Channel
  import opened ChannelInvariants
  import opened Envelope
  import opened WsRelay

  function TraceStep(s: Ws, st: RelayStep): seq<Step>
    requires CanDo(s, st)
  {
    var t := if st.side.Left? then s else Turn(s);
    var call := Lower(t.ch.a, t.a, st.act);
    if call.Call? then [Step(st.side, call.act)] else []
  }

  function Trace(s: Ws, run: seq<RelayStep>): seq<Step>
    requires CanRunWs(s, run)
    decreases |run|
  {
    if run == [] then [] else TraceStep(s, run[0]) + Trace(DoRelay(s, run[0]), run[1..])
  }

  /** The relay passes on only codes that were reported to it. */
  predicate FairCodes(r: Relay) {
    && (r.rd.result.PeerClose? ==> ReportedCode(r.rd.result.code))
    && (r.lp.left.PeerClose? ==> ReportedCode(r.lp.left.code))
  }

  lemma StepTraces(s: Ws, st: RelayStep)
    requires CanDo(s, st)
    ensures CanRun(s.ch, TraceStep(s, st)) && Run(s.ch, TraceStep(s, st)) == DoRelay(s, st).ch
  {
  }

  lemma LoopFair(l: Local, lp: Loop, act: LoopAct)
    requires (act.RelayCode? ==> lp.left.PeerClose?) && (lp.left.PeerClose? ==> ReportedCode(lp.left.code))
    ensures var call := LoopCall(l, lp, act); call.Call? ==> FairAct(call.act)
  {
    FixedTexts();
  }

  lemma StepFair(s: Ws, st: RelayStep)
    requires CanDo(s, st) && FairCodes(s.a) && FairCodes(s.b)
    ensures FairRun(TraceStep(s, st))
  {
    var t := if st.side.Left? then s else Turn(s);
    if st.act.OfLoop? {
      LoopFair(t.ch.a.loc, t.a.lp, st.act.la);
    }
  }

  lemma StaysFair(s: Ws, act: RelayAct)
    requires CanRelay(s, act) && FairCodes(s.a)
    ensures FairCodes(Relayed(s, act).a)
  {
  }

  lemma {:induction false} RunTraces(s: Ws, run: seq<RelayStep>)
    requires CanRunWs(s, run) && FairCodes(s.a) && FairCodes(s.b)
    ensures var trace := Trace(s, run);
      CanRun(s.ch, trace) && Run(s.ch, trace) == RunWs(s, run).ch && FairRun(trace)
    decreases |run|
  {
    if run != [] {
      var s' := DoRelay(s, run[0]);
      StepFair(s, run[0]);
      StaysFair(if run[0].side.Left? then s else Turn(s), run[0].act);
      StepTraces(s, run[0]);
      RunTraces(s', run[1..]);
      RunAppend(s.ch, TraceStep(s, run[0]), Trace(s', run[1..]));
    }
  }

  /** No write of a WebSocket relay is refused for its content: not even a close with
      a code, whatever code the WebSocket was closed with. */
  lemma WsFramesValidate(s: Ws, run: seq<RelayStep>, id: string)
    requires WsInit(s) && CanRunWs(s, run) && ValidToken(id)
    ensures FairRun(Trace(s, run))
    ensures var t := RunWs(s, run).ch; AllValidate(id, t.ab) && AllValidate(id, t.ba)
  {
    RunTraces(s, run);
    EveryFrameValidates(s.ch, Trace(s, run), id);
  }
}

/** The same of the response pump, the edge's handler and the claim timer. */
module HttpTrace {
  import opened Frames
  import opened Window
  import opened Channel
  import opened ChannelInvariants
  import opened ByteBounds
  import opened Envelope
  import opened HttpStream

  function TraceStep(s: Http, st: HttpStep): seq<Step>
    requires CanHttp(s, st)
  {
    match st
    case OfPump(pa) => Traced(Left, PumpCall(s.ch.a.loc, s.pump, pa))
    case OfServe(sa) => Traced(Right, ServeCall(s.ch.b.loc, sa))
    case OfLink(side, act) => [Step(side, act)]
  }

  function Traced(side: Side, call: Call): seq<Step> {
    if call.Call? then [Step(side, call.act)] else []
  }

  function Trace(s: Http, run: seq<HttpStep>): seq<Step>
    requires CanRunHttp(s, run)
    decreases |run|
  {
    if run == [] then [] else TraceStep(s, run[0]) + Trace(DoHttp(s, run[0]), run[1..])
  }

  predicate SmallChunk(p: Pump) {
    p.at.Want? || p.at.Have? ==> |p.at.chunk| <= BODY_BUFFER
  }

  predicate Proper(run: seq<Step>) { FairRun(run) && SmallRun(run, BODY_BUFFER) }

  lemma StepTraces(s: Http, st: HttpStep)
    requires CanHttp(s, st)
    ensures CanRun(s.ch, TraceStep(s, st)) && Run(s.ch, TraceStep(s, st)) == DoHttp(s, st).ch
  {
  }

  lemma PumpProper(l: Local, p: Pump, act: PumpAct)
    requires SmallChunk(p) && (act.GetCredit? ==> p.at.Want?)
    ensures Proper(Traced(Left, PumpCall(l, p, act)))
  {
    FixedTexts();
  }

  lemma ServeProper(l: Local, act: ServeAct)
    ensures Proper(Traced(Right, ServeCall(l, act)))
  {
    FixedTexts();
  }

  lemma StepProper(s: Http, st: HttpStep)
    requires CanHttp(s, st) && SmallChunk(s.pump)
    ensures Proper(TraceStep(s, st))
  {
    match st
    case OfPump(pa) => PumpProper(s.ch.a.loc, s.pump, pa);
    case OfServe(sa) => ServeProper(s.ch.b.loc, sa);
    case OfLink(side, act) =>
  }

  lemma StaysSmall(s: Http, st: HttpStep)
    requires CanHttp(s, st) && SmallChunk(s.pump)
    ensures SmallChunk(DoHttp(s, st).pump)
  {
  }

  lemma {:induction false} RunTraces(s: Http, run: seq<HttpStep>)
    requires CanRunHttp(s, run) && SmallChunk(s.pump)
    ensures var trace := Trace(s, run);
      CanRun(s.ch, trace) && Run(s.ch, trace) == RunHttp(s, run).ch && Proper(trace)
    decreases |run|
  {
    if run != [] {
      var s' := DoHttp(s, run[0]);
      StepProper(s, run[0]);
      StaysSmall(s, run[0]);
      StepTraces(s, run[0]);
      RunTraces(s', run[1..]);
      RunAppend(s.ch, TraceStep(s, run[0]), Trace(s', run[1..]));
    }
  }

  /** No write of the pump, the handler or the timer is refused for its content. */
  lemma HttpFramesValidate(s: Http, run: seq<HttpStep>, id: string)
    requires HttpInit(s) && CanRunHttp(s, run) && ValidToken(id)
    ensures FairRun(Trace(s, run))
    ensures var t := RunHttp(s, run).ch; AllValidate(id, t.ab) && AllValidate(id, t.ba)
  {
    RunTraces(s, run);
    EveryFrameValidates(s.ch, Trace(s, run), id);
  }

  /** A streamed body never has more than a mebibyte unacknowledged. */
  lemma HttpBytesBounded(s: Http, run: seq<HttpStep>)
    requires HttpInit(s) && CanRunHttp(s, run)
    ensures |Payload(Unacknowledged(RunHttp(s, run).ch))| <= BODY_BUFFER * SEND_WINDOW == 1024 * 1024
  {
    RunTraces(s, run);
    UnacknowledgedBytesBounded(s.ch, Trace(s, run), BODY_BUFFER);
  }
}
