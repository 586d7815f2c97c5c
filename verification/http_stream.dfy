/** A streamed HTTP response body: the pump goroutine of the connector opens the
    session and sends the body, the edge's handler claims it and serves it, and a
    timer discards it if nobody does. internal/connector/proxy.go,
    internal/edge/data.go, internal/edge/edge.go */
module HttpStream {
  import opened Frames
  import opened Channel

  const BODY_BUFFER: nat := 32 * 1024

  datatype BodyEnd = NoEnd | EndOfBody | BodyError

  datatype PumpAt =
    | Waiting                                  // Link.Open has not returned
    | Reading
    | Want(chunk: Bytes, next: BodyEnd)
    | Have(chunk: Bytes, next: BodyEnd)
    | SendingEof | Closing | Failing | Removing
    | Finished

  /** unread: the rest of the backend's body; read: the bytes read so far; dropped:
      the last chunk read could not be sent; ended: how reading ended. */
  datatype Pump = Pump(at: PumpAt, unread: Bytes, read: Bytes, dropped: bool, ended: BodyEnd)

  /** Found: claimStreamSession has looked the session up and not yet claimed it. */
  datatype ServeAt =
    | Unclaimed | Found | Selecting | Writing(chunk: Bytes) | Acking
    | ClosingSession | RemovingSession | Gone
  {
    /** What Claimed() denies. */
    predicate Free() { Unclaimed? || Found? }
  }

  /** Why serveStreamedResponse stopped: the first three are normal returns, Aborted
      is the panic that truncates the response. */
  datatype Cause = Serving | ClientGone | ClientFailed | SawEof | Aborted

  datatype Timer = Armed | Decided | Discarding | Discarded | StoodDown

  /** claimedUnder: where the timer was when the handler claimed the session. */
  datatype Serve = Serve(at: ServeAt, written: Bytes, cause: Cause, timer: Timer, claimedUnder: Timer)

  datatype Http = Http(ch: Channel, pump: Pump, serve: Serve)

  datatype PumpAct =
    | Started
    | ReadBody(n: nat, end: BodyEnd)
    | GetCredit
    | SeeClosed
    | WriteData
    | SendEof
    | SendClose
    | SendFailure
    | Remove

  datatype ServeAct =
    | FindSession
    | Claim
    | ClientLeaves
    | SeeDone
    | TakeNext
    | WriteClient(n: nat, ok: bool)
    | Acknowledge
    | DeferClose
    | DeferRemove
    | TimerFires
    | TimerReports
    | TimerRemoves

  datatype HttpStep =
    | OfPump(pa: PumpAct)
    | OfServe(sa: ServeAct)
    | OfLink(side: Side, act: Act)

  predicate HttpInit(s: Http) {
    && Init(s.ch) && s.ch.a.loc.opener
    && s.pump == Pump(Waiting, s.pump.unread, [], false, NoEnd)
    && s.serve == Serve(Unclaimed, [], Serving, Armed, Armed)
  }

  // The pump.

  predicate PumpAtAct(l: Local, p: Pump, act: PumpAct) {
    match act
    case Started => p.at.Waiting? && Usable(l)
    case ReadBody(n, end) =>
      && p.at.Reading? && n <= |p.unread| && n <= BODY_BUFFER
      && (n == 0 ==> !end.NoEnd?)
      && (end.EndOfBody? ==> n == |p.unread|)
    case GetCredit => p.at.Want?
    case SeeClosed => p.at.Want? && l.life.Done?
    case WriteData => p.at.Have?
    case SendEof => p.at.SendingEof?
    case SendClose => p.at.Closing?
    case SendFailure => p.at.Failing?
    case Remove => p.at.Removing?
  }

  function PumpCall(l: Local, p: Pump, act: PumpAct): Call
    requires act.GetCredit? ==> p.at.Want?
  {
    match act
    case GetCredit => Call(TakeCredit(Data(Binary, p.at.chunk)))
    case WriteData => Call(WriteHeld)
    case SendEof => Call(SendControl(Eof))
    case SendClose => Call(SendControl(Close(0, [])))
    case SendFailure => Call(SendControl(Frame.Error("backend body read failed")))
    case Remove => if l.life.Live? then Call(RemoveFromMap) else NoCall
    case _ => NoCall
  }

  /** The pump's reaction to the end of the body. */
  function AfterBody(p: Pump, end: BodyEnd): Pump {
    p.(ended := end, at := if end.EndOfBody? then SendingEof else Failing)
  }

  function PumpNext(wrBroken: bool, p: Pump, act: PumpAct): Pump
    requires act.ReadBody? ==> act.n <= |p.unread|
    requires act.GetCredit? ==> p.at.Want?
    requires act.WriteData? ==> p.at.Have?
  {
    match act
    case Started => p.(at := Reading)
    case ReadBody(n, end) =>
      var p' := p.(read := p.read + p.unread[..n], unread := p.unread[n..]);
      if n > 0 then p'.(at := Want(p.unread[..n], end)) else AfterBody(p', end)
    case GetCredit => p.(at := Have(p.at.chunk, p.at.next))
    case SeeClosed => p.(at := Finished, dropped := true)
    case WriteData =>
      if wrBroken then p.(at := Finished, dropped := true)
      else if !p.at.next.NoEnd? then AfterBody(p, p.at.next)
      else p.(at := Reading)
    case SendEof => p.(at := Closing)
    case SendClose => p.(at := Removing)
    case SendFailure => p.(at := Removing)
    case Remove => p.(at := Finished)
  }

  // The handler and the claim timer.

  predicate ServeAtAct(l: Local, v: Serve, act: ServeAct) {
    match act
    case FindSession => v.at.Unclaimed? && l.life.Live?
    case Claim => v.at.Found?
    case ClientLeaves => v.at.Selecting?
    case SeeDone => v.at.Selecting? && l.life.Done?
    case TakeNext => v.at.Selecting?
    case WriteClient(n, ok) => v.at.Writing? && n <= |v.at.chunk| && (ok ==> n == |v.at.chunk|)
    case Acknowledge => v.at.Acking?
    case DeferClose => v.at.ClosingSession?
    case DeferRemove => v.at.RemovingSession?
    case TimerFires => v.timer.Armed? && Usable(l)
    case TimerReports => v.timer.Decided?
    case TimerRemoves => v.timer.Discarding?
  }

  function ServeCall(l: Local, act: ServeAct): Call {
    match act
    case TakeNext => Call(TakeFrame)
    case Acknowledge => Call(AckData)
    case DeferClose => Call(SendControl(Close(0, [])))
    case DeferRemove => if l.life.Live? then Call(RemoveFromMap) else NoCall
    case TimerReports => Call(SendControl(Frame.Error("response stream was not claimed")))
    case TimerRemoves => if l.life.Live? then Call(RemoveFromMap) else NoCall
    case _ => NoCall
  }

  function Received(v: Serve, f: Frame): Serve {
    match f
    case Data(_, payload) => v.(at := Writing(payload))
    case Eof => v.(at := ClosingSession, cause := SawEof)
    case Close(_, _) => v.(at := ClosingSession, cause := Aborted)
    case Error(_) => v.(at := ClosingSession, cause := Aborted)
    case _ => v
  }

  function ServeNext(l: Local, v: Serve, act: ServeAct): Serve
    requires act.TakeNext? ==> l.q.recv != []
    requires act.WriteClient? ==> v.at.Writing? && act.n <= |v.at.chunk|
  {
    match act
    case FindSession => v.(at := Found)
    case Claim => v.(at := Selecting, claimedUnder := v.timer)
    case ClientLeaves => v.(at := ClosingSession, cause := ClientGone)
    case SeeDone => v.(at := ClosingSession, cause := Aborted)
    case TakeNext => Received(v, l.q.recv[0])
    case WriteClient(n, ok) =>
      var v' := v.(written := v.written + v.at.chunk[..n]);
      if ok then v'.(at := Acking) else v'.(at := ClosingSession, cause := ClientFailed)
    case Acknowledge => v.(at := Selecting)
    case DeferClose => v.(at := RemovingSession)
    case DeferRemove => v.(at := Gone)
    case TimerFires => v.(timer := if v.at.Free() then Decided else StoodDown)
    case TimerReports => v.(timer := Discarding)
    case TimerRemoves => v.(timer := Discarded)
  }

  // The session.

  predicate PumpCan(e: End, p: Pump, act: PumpAct) {
    PumpAtAct(e.loc, p, act) && (var call := PumpCall(e.loc, p, act); call.Call? ==> CanAct(e, call.act))
  }

  predicate ServeCan(e: End, v: Serve, act: ServeAct) {
    ServeAtAct(e.loc, v, act) && (var call := ServeCall(e.loc, act); call.Call? ==> CanAct(e, call.act))
  }

  predicate CanHttp(s: Http, st: HttpStep) {
    match st
    case OfPump(pa) => PumpCan(s.ch.a, s.pump, pa)
    case OfServe(sa) => ServeCan(s.ch.b, s.serve, sa)
    case OfLink(side, act) =>
      && LinkMay(if side.Left? then s.ch.a else s.ch.b, act) && CanStep(s.ch, Step(side, act))
  }

  function Perform(ch: Channel, side: Side, call: Call): Channel
    requires call.Call? ==> CanStep(ch, Step(side, call.act))
  {
    if call.Call? then Do(ch, Step(side, call.act)) else ch
  }

  function DoHttp(s: Http, st: HttpStep): Http
    requires CanHttp(s, st)
  {
    match st
    case OfPump(pa) =>
      Http(Perform(s.ch, Left, PumpCall(s.ch.a.loc, s.pump, pa)), PumpNext(s.ch.a.port.wrBroken, s.pump, pa), s.serve)
    case OfServe(sa) =>
      Http(Perform(s.ch, Right, ServeCall(s.ch.b.loc, sa)), s.pump, ServeNext(s.ch.b.loc, s.serve, sa))
    case OfLink(side, act) => s.(ch := Do(s.ch, Step(side, act)))
  }

  predicate CanRunHttp(s: Http, run: seq<HttpStep>)
    decreases |run|
  {
    run == [] || (CanHttp(s, run[0]) && CanRunHttp(DoHttp(s, run[0]), run[1..]))
  }

  function RunHttp(s: Http, run: seq<HttpStep>): Http
    requires CanRunHttp(s, run)
    decreases |run|
  {
    if run == [] then s else RunHttp(DoHttp(s, run[0]), run[1..])
  }
}

/** What a streamed response keeps whatever goes wrong. */
module HttpStreamSafety {
  import opened Frames
  import opened Window
  import opened Channel
  import opened ChannelInvariants
  import opened FlowControl
  import opened HttpStream

  /** The pump's EOF and close, or its error. */
  function PumpSpent(p: Pump): nat {
    if p.at.Closing? then 1
    else if p.at.Removing? || (p.at.Finished? && !p.dropped) then (if p.ended.EndOfBody? then 2 else 1)
    else 0
  }

  predicate PumpFits(e: End, p: Pump) {
    var l := e.loc;
    && (!p.at.Waiting? ==> Usable(l) && !l.life.Refused?)
    && l.hold == (if p.at.Have? then Full(Data(Binary, p.at.chunk)) else Empty)
    && (p.dropped ==> p.at.Finished?)
    && (if l.life.Refused? then l.ctl <= 1 && !Usable(l) else l.ctl == PumpSpent(p))
  }

  /** Only the pump, or the end of the connection, ends the connector's session. */
  predicate PumpOwns(e: End, p: Pump) {
    !e.port.wrBroken ==> (Over(e.loc.life) <==> p.at.Finished?)
  }

  /** Only the handler, the timer, or the end of the connection ends the edge's. */
  predicate EdgeOwns(e: End, v: Serve) {
    && (v.at.Gone? || v.timer.Discarded? ==> Over(e.loc.life))
    && (Over(e.loc.life) ==> v.at.Gone? || v.timer.Discarded? || e.port.wrBroken)
  }

  /** The bytes read are the bytes sent, plus the chunk the pump holds. */
  predicate PumpSending(l: Local, p: Pump) {
    if p.at.Want? || p.at.Have? then p.read == Payload(l.sent) + p.at.chunk
    else if p.dropped then Payload(l.sent) <= p.read
    else p.read == Payload(l.sent)
  }

  predicate PumpEnds(l: Local, p: Pump) {
    && (p.at.Want? || p.at.Have? ==> 0 < |p.at.chunk| <= BODY_BUFFER)
    && ((p.at.Want? || p.at.Have?) && p.at.next.EndOfBody? ==> p.unread == [])
    && (p.at.Waiting? || p.at.Reading? || p.at.Want? || p.at.Have? || p.dropped ==> p.ended.NoEnd?)
    && (p.ended.EndOfBody? ==> p.unread == [])
    && (p.at.SendingEof? || p.at.Closing? ==> p.ended.EndOfBody?)
    && (p.at.Failing? ==> p.ended.BodyError?)
    && (Eof in l.sent ==> p.ended.EndOfBody?)
    && (forall i, j :: 0 <= i < j < |l.sent| && l.sent[i].Eof? ==> !l.sent[j].Data?)
  }

  /** One of the frames ends the session, with or without an error. */
  predicate Cut(q: seq<Frame>) { exists i :: 0 <= i < |q| && (q[i].Error? || q[i].Close?) }

  predicate Ended(v: Serve) { v.at.ClosingSession? || v.at.RemovingSession? || v.at.Gone? }

  /** The handler's close, and the timer's error. */
  function ServeSpent(v: Serve): nat {
    (if v.at.RemovingSession? || v.at.Gone? then 1 else 0)
    + (if v.timer.Discarding? || v.timer.Discarded? then 1 else 0)
  }

  predicate ServeFits(l: Local, v: Serve) {
    && (!v.at.Unclaimed? || !v.timer.Armed? ==> Usable(l) && !l.life.Refused?)
    && (v.at.Free() ==> l.got == [] && !l.busy)
    && (v.at.Writing? || v.at.Acking? ==> l.busy)
    && (v.at.Selecting? ==> !l.busy)
    && (v.cause.Serving? <==> !Ended(v))
    && (v.at.Free() ==> !v.timer.StoodDown?)
    && (!v.at.Free() ==> (v.claimedUnder.Armed? <==> v.timer.Armed? || v.timer.StoodDown?))
    && l.hold.Empty?
    && (if l.life.Refused? then l.ctl <= 1 && !Usable(l) else l.ctl == ServeSpent(v))
  }

  predicate ServeReceiving(l: Local, v: Serve) {
    && (if v.at.Writing? then v.written + v.at.chunk == Payload(l.got)
        else if v.cause.ClientFailed? then v.written <= Payload(l.got)
        else v.written == Payload(l.got))
    && (v.cause.SawEof? <==> Eof in l.got)
    && (Cut(l.got) ==> v.cause.Aborted?)
  }

  predicate HttpInv(s: Http) {
    && Inv(s.ch)
    && PumpFits(s.ch.a, s.pump) && PumpOwns(s.ch.a, s.pump)
    && PumpSending(s.ch.a.loc, s.pump) && PumpEnds(s.ch.a.loc, s.pump)
    && ServeFits(s.ch.b.loc, s.serve) && ServeReceiving(s.ch.b.loc, s.serve) && EdgeOwns(s.ch.b, s.serve)
  }

  // The pump.

  function AfterPump(e: End, p: Pump, act: PumpAct): End
    requires PumpCan(e, p, act)
  {
    var call := PumpCall(e.loc, p, act);
    if call.Call? then Effect(e, call.act).end else e
  }

  lemma PumpKeepsFit(e: End, p: Pump, act: PumpAct)
    requires PumpCan(e, p, act) && PumpFits(e, p) && PumpOwns(e, p) && PumpEnds(e.loc, p)
    requires e.loc.opener && (e.loc.announced ==> !e.loc.life.Absent?)
    ensures PumpFits(AfterPump(e, p, act), PumpNext(e.port.wrBroken, p, act))
    ensures PumpOwns(AfterPump(e, p, act), PumpNext(e.port.wrBroken, p, act))
  {
  }

  lemma PumpKeepsSending(e: End, p: Pump, act: PumpAct)
    requires PumpCan(e, p, act) && PumpFits(e, p) && PumpSending(e.loc, p)
    ensures PumpSending(AfterPump(e, p, act).loc, PumpNext(e.port.wrBroken, p, act))
  {
    var sent, sent' := e.loc.sent, AfterPump(e, p, act).loc.sent;
    if sent' != sent {
      assert sent' == sent + [sent'[|sent|]];
      AppendPayload(sent, [sent'[|sent|]]);
      assert Payload([sent'[|sent|]]) == if act.WriteData? then p.at.chunk else [];
    }
  }

  lemma PumpKeepsEnds(e: End, p: Pump, act: PumpAct)
    requires PumpCan(e, p, act) && PumpFits(e, p) && PumpEnds(e.loc, p)
    ensures PumpEnds(AfterPump(e, p, act).loc, PumpNext(e.port.wrBroken, p, act))
  {
  }

  // The handler and the timer.

  function AfterServe(e: End, v: Serve, act: ServeAct): End
    requires ServeCan(e, v, act)
  {
    var call := ServeCall(e.loc, act);
    if call.Call? then Effect(e, call.act).end else e
  }

  lemma ServeKeepsFit(e: End, v: Serve, act: ServeAct)
    requires ServeCan(e, v, act) && ServeFits(e.loc, v) && !e.loc.opener
    ensures ServeFits(AfterServe(e, v, act).loc, ServeNext(e.loc, v, act))
  {
  }

  lemma ServeKeepsOwns(e: End, v: Serve, act: ServeAct)
    requires ServeCan(e, v, act) && ServeFits(e.loc, v) && EdgeOwns(e, v) && !e.loc.opener
    ensures EdgeOwns(AfterServe(e, v, act), ServeNext(e.loc, v, act))
  {
  }

  lemma ServeKeepsReceiving(e: End, v: Serve, act: ServeAct)
    requires ServeCan(e, v, act) && ServeFits(e.loc, v) && ServeReceiving(e.loc, v)
    ensures ServeReceiving(AfterServe(e, v, act).loc, ServeNext(e.loc, v, act))
  {
    if act.TakeNext? {
      AppendPayload(e.loc.got, [e.loc.q.recv[0]]);
      assert AfterServe(e, v, act).loc.got == e.loc.got + [e.loc.q.recv[0]];
    } else {
      assert AfterServe(e, v, act).loc.got == e.loc.got;
    }
  }

  // The link.

  /** The link's goroutines end a session only once its connection is closed. */
  lemma LinkEndsNone(s: Channel, act: Act)
    requires Framed(s) && !Overrun(s) && LinkMay(s.a, act) && Enabled(s, act)
    ensures var l, l' := s.a.loc.life, Apply(s, act).a.loc.life;
      (Over(l) ==> Over(l')) && (Over(l') && !Over(l) ==> s.a.port.wrBroken)
  {
  }

  predicate LinkLeaves(e: End, e': End) {
    && Undisturbed(e.loc, e'.loc)
    && (e.port.wrBroken ==> e'.port.wrBroken)
    && (Over(e.loc.life) ==> Over(e'.loc.life))
    && (Over(e'.loc.life) && !Over(e.loc.life) ==> e.port.wrBroken)
  }

  lemma PumpByLink(e: End, e': End, p: Pump)
    requires PumpFits(e, p) && PumpSending(e.loc, p) && PumpEnds(e.loc, p) && PumpOwns(e, p) && LinkLeaves(e, e')
    ensures PumpFits(e', p) && PumpSending(e'.loc, p) && PumpEnds(e'.loc, p) && PumpOwns(e', p)
  {
  }

  lemma ServeByLink(e: End, e': End, v: Serve)
    requires ServeFits(e.loc, v) && ServeReceiving(e.loc, v) && EdgeOwns(e, v) && LinkLeaves(e, e')
    ensures ServeFits(e'.loc, v) && ServeReceiving(e'.loc, v) && EdgeOwns(e', v)
  {
  }

  // All of it.

  lemma KeptByPump(s: Http, act: PumpAct)
    requires HttpInv(s) && PumpCan(s.ch.a, s.pump, act) && s.ch.a.loc.opener
    ensures HttpInv(DoHttp(s, OfPump(act)))
    ensures DoHttp(s, OfPump(act)).ch.a.loc.opener
  {
    PumpKeepsFit(s.ch.a, s.pump, act);
    PumpKeepsSending(s.ch.a, s.pump, act);
    PumpKeepsEnds(s.ch.a, s.pump, act);
    var call := PumpCall(s.ch.a.loc, s.pump, act);
    if call.Call? {
      StepKeeps(s.ch, Step(Left, call.act));
    }
  }

  lemma ServeEnds(s: Http, act: ServeAct)
    requires ServeCan(s.ch.b, s.serve, act)
    ensures CanHttp(s, OfServe(act))
    ensures var t := DoHttp(s, OfServe(act));
      && t.ch.a == s.ch.a && t.ch.b == AfterServe(s.ch.b, s.serve, act)
      && t.pump == s.pump && t.serve == ServeNext(s.ch.b.loc, s.serve, act)
  {
  }

  lemma KeptByServe(s: Http, act: ServeAct)
    requires HttpInv(s) && ServeCan(s.ch.b, s.serve, act) && !s.ch.b.loc.opener
    ensures HttpInv(DoHttp(s, OfServe(act)))
  {
    ServeKeepsFit(s.ch.b, s.serve, act);
    ServeKeepsOwns(s.ch.b, s.serve, act);
    ServeKeepsReceiving(s.ch.b, s.serve, act);
    ServeEnds(s, act);
    var call := ServeCall(s.ch.b.loc, act);
    if call.Call? {
      StepKeeps(s.ch, Step(Right, call.act));
    }
  }

  lemma KeptByConnectorLink(s: Http, act: Act)
    requires HttpInv(s) && CanHttp(s, OfLink(Left, act))
    ensures HttpInv(DoHttp(s, OfLink(Left, act)))
  {
    StepKeeps(s.ch, Step(Left, act));
    UsersByLink(s.ch, act);
    PumpByLink(s.ch.a, Apply(s.ch, act).a, s.pump);
  }

  lemma KeptByEdgeLink(s: Http, act: Act)
    requires HttpInv(s) && CanHttp(s, OfLink(Right, act))
    ensures HttpInv(DoHttp(s, OfLink(Right, act)))
  {
    StepKeeps(s.ch, Step(Right, act));
    FlipInv(s.ch);
    UsersByLink(Flip(s.ch), act);
    ServeByLink(s.ch.b, Apply(Flip(s.ch), act).a, s.serve);
  }

  lemma UsersByLink(s: Channel, act: Act)
    requires Inv(s) && LinkMay(s.a, act) && Enabled(s, act)
    requires s.b.loc.ctl <= RECV_SLACK && (s.a.loc.life.Refused? ==> s.a.loc.ctl <= 1)
    ensures LinkLeaves(s.a, Apply(s, act).a)
  {
    InvNoOverrun(s);
    LinkUndisturbed(s, act);
    LinkEndsNone(s, act);
  }

  lemma InvOpener(s: Http)
    requires HttpInv(s) && s.ch.a.loc.opener
    ensures !s.ch.b.loc.opener
  {
  }

  lemma OpenerStays(ch: Channel, act: Act)
    requires Enabled(ch, act)
    ensures Apply(ch, act).a.loc.opener == ch.a.loc.opener && Apply(ch, act).b == ch.b
  {
  }

  lemma OpenerKept(s: Http, st: HttpStep)
    requires CanHttp(s, st)
    ensures DoHttp(s, st).ch.a.loc.opener == s.ch.a.loc.opener
  {
    match st
    case OfPump(pa) =>
      var call := PumpCall(s.ch.a.loc, s.pump, pa);
      if call.Call? {
        OpenerStays(s.ch, call.act);
      }
    case OfServe(sa) =>
      var call := ServeCall(s.ch.b.loc, sa);
      if call.Call? {
        OpenerStays(Flip(s.ch), call.act);
      }
    case OfLink(side, act) => OpenerStays(if side.Left? then s.ch else Flip(s.ch), act);
  }

  lemma HttpStepKeeps(s: Http, st: HttpStep)
    requires HttpInv(s) && s.ch.a.loc.opener && CanHttp(s, st)
    ensures HttpInv(DoHttp(s, st)) && DoHttp(s, st).ch.a.loc.opener
  {
    InvOpener(s);
    OpenerKept(s, st);
    match st
    case OfPump(pa) => KeptByPump(s, pa);
    case OfServe(sa) => KeptByServe(s, sa);
    case OfLink(side, act) =>
      if side.Left? {
        KeptByConnectorLink(s, act);
      } else {
        KeptByEdgeLink(s, act);
      }
  }

  lemma {:induction false} HttpRunKeeps(s: Http, run: seq<HttpStep>)
    requires HttpInv(s) && s.ch.a.loc.opener && CanRunHttp(s, run)
    ensures HttpInv(RunHttp(s, run)) && RunHttp(s, run).ch.a.loc.opener
    decreases |run|
  {
    if run != [] {
      HttpStepKeeps(s, run[0]);
      HttpRunKeeps(DoHttp(s, run[0]), run[1..]);
    }
  }

  lemma HttpReached(s: Http, run: seq<HttpStep>)
    requires HttpInit(s) && CanRunHttp(s, run)
    ensures HttpInv(RunHttp(s, run)) && RunHttp(s, run).ch.a.loc.opener
  {
    InitInv(s.ch);
    HttpRunKeeps(s, run);
  }

  // The theorems, over every run with any fault anywhere.

  /** serveStreamedResponse has returned, or is about to, without panicking. */
  predicate ReturnsNormally(v: Serve) { Ended(v) && !v.cause.Aborted? }

  predicate BackendFails(st: HttpStep) {
    st.OfPump? && st.pa.ReadBody? && st.pa.end.BodyError?
  }

  predicate BackendUp(run: seq<HttpStep>) {
    forall i :: 0 <= i < |run| ==> !BackendFails(run[i])
  }

  predicate WriteFails(st: HttpStep) { st.OfServe? && st.sa.WriteClient? && !st.sa.ok }

  /** What stops the handler without a frame, if a step does. */
  function StopBy(st: HttpStep): Cause {
    if st == OfServe(ClientLeaves) then ClientGone
    else if WriteFails(st) then ClientFailed
    else if st == OfServe(SeeDone) then Aborted
    else Serving
  }

  /** The first step of a run that stops the handler. */
  function StopIn(run: seq<HttpStep>): Cause
    decreases |run|
  {
    if run == [] then Serving else if !StopBy(run[0]).Serving? then StopBy(run[0]) else StopIn(run[1..])
  }

  lemma {:induction false} StopIsInRun(run: seq<HttpStep>)
    ensures StopIn(run).ClientGone? ==> OfServe(ClientLeaves) in run
    ensures StopIn(run).ClientFailed? ==> exists i :: 0 <= i < |run| && WriteFails(run[i])
    decreases |run|
  {
    if run != [] && StopBy(run[0]).Serving? {
      StopIsInRun(run[1..]);
      if StopIn(run).ClientFailed? {
        var i :| 0 <= i < |run| - 1 && WriteFails(run[1..][i]);
        assert WriteFails(run[i + 1]);
      }
    }
  }

  /** What stops it with a frame. */
  function StopByFrame(got: seq<Frame>): Cause {
    if Eof in got then SawEof else if Cut(got) then Aborted else Serving
  }

  lemma GotByPump(s: Http, act: PumpAct)
    requires CanHttp(s, OfPump(act))
    ensures var t := DoHttp(s, OfPump(act)); t.serve == s.serve && t.ch.b == s.ch.b
  {
    var call := PumpCall(s.ch.a.loc, s.pump, act);
    if call.Call? {
      OpenerStays(s.ch, call.act);
    }
  }

  lemma GotByLink(s: Http, side: Side, act: Act)
    requires HttpInv(s) && s.ch.a.loc.opener && CanHttp(s, OfLink(side, act))
    ensures var t := DoHttp(s, OfLink(side, act)); t.serve == s.serve && t.ch.b.loc.got == s.ch.b.loc.got
  {
    if side.Left? {
      OpenerStays(s.ch, act);
    } else {
      FlipInv(s.ch);
      UsersByLink(Flip(s.ch), act);
    }
  }

  /** The frames the handler has taken after one of its acts. */
  function GotAfter(l: Local, act: ServeAct): seq<Frame>
    requires act.TakeNext? ==> l.q.recv != []
  {
    if act.TakeNext? then l.got + [l.q.recv[0]] else l.got
  }

  lemma GotByServe(s: Http, act: ServeAct)
    requires CanHttp(s, OfServe(act))
    ensures var t := DoHttp(s, OfServe(act));
      t.serve == ServeNext(s.ch.b.loc, s.serve, act) && t.ch.b.loc.got == GotAfter(s.ch.b.loc, act)
  {
    ServeEnds(s, act);
  }

  /** A step from one handler to another, with the frames each has taken. */
  predicate StopsBy(c: Cause, got: seq<Frame>, c': Cause, got': seq<Frame>, st: HttpStep) {
    && c' == (if !c.Serving? then c else if !StopBy(st).Serving? then StopBy(st) else StopByFrame(got'))
    && (!c.Serving? ==> StopBy(st).Serving? && got' == got)
  }

  lemma CauseByServe(l: Local, v: Serve, act: ServeAct)
    requires ServeAtAct(l, v, act) && ServeFits(l, v) && ServeReceiving(l, v) && (act.TakeNext? ==> l.q.recv != [])
    ensures StopsBy(v.cause, l.got, ServeNext(l, v, act).cause, GotAfter(l, act), OfServe(act))
  {
    if act.TakeNext? {
      var got := GotAfter(l, act);
      assert got[|l.got|] == l.q.recv[0] && got[..|l.got|] == l.got;
      assert forall i :: 0 <= i < |l.got| ==> got[i] == l.got[i];
    }
  }

  predicate StopsWith(s: Http, t: Http, st: HttpStep) {
    StopsBy(s.serve.cause, s.ch.b.loc.got, t.serve.cause, t.ch.b.loc.got, st)
  }

  lemma CauseStays(s: Http, t: Http, st: HttpStep)
    requires ServeReceiving(s.ch.b.loc, s.serve) && !st.OfServe?
    requires t.serve == s.serve && t.ch.b.loc.got == s.ch.b.loc.got
    ensures StopsWith(s, t, st)
  {
  }

  lemma CauseMoves(s: Http, act: ServeAct)
    requires CanHttp(s, OfServe(act)) && ServeFits(s.ch.b.loc, s.serve) && ServeReceiving(s.ch.b.loc, s.serve)
    ensures StopsWith(s, DoHttp(s, OfServe(act)), OfServe(act))
  {
    GotByServe(s, act);
    CauseByServe(s.ch.b.loc, s.serve, act);
  }

  lemma CauseByStep(s: Http, st: HttpStep)
    requires HttpInv(s) && s.ch.a.loc.opener && CanHttp(s, st)
    ensures StopsWith(s, DoHttp(s, st), st)
  {
    match st
    case OfPump(pa) =>
      GotByPump(s, pa);
      CauseStays(s, DoHttp(s, st), st);
    case OfServe(sa) =>
      CauseMoves(s, sa);
    case OfLink(side, act) =>
      GotByLink(s, side, act);
      CauseStays(s, DoHttp(s, st), st);
  }

  predicate StopsIn(s: Http, t: Http, run: seq<HttpStep>) {
    var c, c' := s.serve.cause, t.serve.cause;
    && c' == (if !c.Serving? then c else if !StopIn(run).Serving? then StopIn(run) else StopByFrame(t.ch.b.loc.got))
    && (!c.Serving? ==> StopIn(run).Serving? && t.ch.b.loc.got == s.ch.b.loc.got)
  }

  lemma StopsThenIn(s: Http, t: Http, u: Http, run: seq<HttpStep>)
    requires run != [] && StopsWith(s, t, run[0]) && StopsIn(t, u, run[1..])
    ensures StopsIn(s, u, run)
  {
  }

  lemma {:induction false} CauseByRun(s: Http, run: seq<HttpStep>)
    requires HttpInv(s) && s.ch.a.loc.opener && CanRunHttp(s, run)
    ensures StopsIn(s, RunHttp(s, run), run)
    decreases |run|
  {
    if run != [] {
      HttpStepKeeps(s, run[0]);
      CauseByStep(s, run[0]);
      CauseByRun(DoHttp(s, run[0]), run[1..]);
      StopsThenIn(s, DoHttp(s, run[0]), RunHttp(s, run), run);
    }
  }

  /** The handler stops for the first reason there is: the client left, a write to it
      failed, the session was found done, or a frame taken ended the body. Nothing
      but a done session, a close or an error makes it panic, and they always do. */
  lemma StopsForItsReason(s: Http, run: seq<HttpStep>)
    requires HttpInit(s) && CanRunHttp(s, run)
    ensures var t := RunHttp(s, run);
      t.serve.cause == if !StopIn(run).Serving? then StopIn(run) else StopByFrame(t.ch.b.loc.got)
  {
    InitInv(s.ch);
    CauseByRun(s, run);
  }

  /** A truncated body never ends cleanly: a normal return means that the client
      went away, that a write to it failed, or that it has been given the whole
      body, which the pump read up to its end. */
  lemma CleanEndIsWhole(s: Http, run: seq<HttpStep>)
    requires HttpInit(s) && CanRunHttp(s, run)
    requires ReturnsNormally(RunHttp(s, run).serve)
    ensures var t := RunHttp(s, run);
      || (t.serve.cause.ClientGone? && OfServe(ClientLeaves) in run)
      || (t.serve.cause.ClientFailed? && exists i :: 0 <= i < |run| && WriteFails(run[i]))
      || (t.pump.ended.EndOfBody? && t.pump.unread == [] && t.serve.written == t.pump.read)
  {
    HttpReached(s, run);
    StopsForItsReason(s, run);
    StopIsInRun(run);
    var t := RunHttp(s, run);
    if t.serve.cause.SawEof? {
      InvWhole(t);
    }
  }

  lemma InvWhole(t: Http)
    requires HttpInv(t) && t.serve.cause.SawEof?
    ensures t.pump.ended.EndOfBody? && t.pump.unread == [] && t.serve.written == t.pump.read
  {
    InvPrefix(t.ch);
    var got, sent := t.ch.b.loc.got, t.ch.a.loc.sent;
    var i :| 0 <= i < |got| && got[i] == Eof;
    assert sent[i] == Eof;
    var rest := sent[|got|..];
    assert sent == got + rest;
    AppendPayload(got, rest);
    NoDataNoPayload(rest);
  }

  /** The pump has been given the end of the body. */
  predicate PastEnd(p: Pump) {
    !(p.at.Waiting? || p.at.Reading? || p.at.Want? || p.at.Have?) || ((p.at.Want? || p.at.Have?) && !p.at.next.NoEnd?)
  }

  predicate Reads(st: HttpStep) { st.OfPump? && st.pa.ReadBody? }

  /** After a read that reported the end of the body or an error, with bytes or without,
      the body is never read again. */
  lemma {:induction false} NothingReadAfterEnd(s: Http, run: seq<HttpStep>)
    requires PastEnd(s.pump) && CanRunHttp(s, run)
    ensures PastEnd(RunHttp(s, run).pump)
    ensures forall i :: 0 <= i < |run| ==> !Reads(run[i])
    decreases |run|
  {
    if run != [] {
      NothingReadAfterEnd(DoHttp(s, run[0]), run[1..]);
    }
  }

  /** How many bytes the client has taken. */
  function TookIn(run: seq<HttpStep>): nat
    decreases |run|
  {
    if run == [] then 0
    else (if run[0].OfServe? && run[0].sa.WriteClient? then run[0].sa.n else 0) + TookIn(run[1..])
  }

  lemma {:induction false} WrittenIsTaken(s: Http, run: seq<HttpStep>)
    requires CanRunHttp(s, run)
    ensures |RunHttp(s, run).serve.written| == |s.serve.written| + TookIn(run)
    decreases |run|
  {
    if run != [] {
      WrittenIsTaken(DoHttp(s, run[0]), run[1..]);
    }
  }

  /** The pump tells the edge how the body ended: an EOF and then a close, or an error. */
  lemma PumpTellsTheEnd(s: Http)
    requires !s.ch.a.port.wrBroken
    ensures CanHttp(s, OfPump(PumpAct.SendEof)) ==> DoHttp(s, OfPump(PumpAct.SendEof)).ch.ab == s.ch.ab + [Eof]
    ensures CanHttp(s, OfPump(SendClose)) ==> DoHttp(s, OfPump(SendClose)).ch.ab == s.ch.ab + [Close(0, [])]
    ensures CanHttp(s, OfPump(SendFailure)) ==>
      DoHttp(s, OfPump(SendFailure)).ch.ab == s.ch.ab + [Frame.Error("backend body read failed")]
  {
  }

  /** The edge tells the connector that the handler has returned, or that nobody has
      claimed the session. */
  lemma EdgeTellsItsEnd(s: Http)
    requires !s.ch.b.port.wrBroken
    ensures CanHttp(s, OfServe(DeferClose)) ==> DoHttp(s, OfServe(DeferClose)).ch.ba == s.ch.ba + [Close(0, [])]
    ensures CanHttp(s, OfServe(TimerReports)) ==>
      DoHttp(s, OfServe(TimerReports)).ch.ba == s.ch.ba + [Frame.Error("response stream was not claimed")]
  {
  }

  /** At every moment the client has been given a prefix of what was read. */
  lemma ServedIsPrefix(s: Http, run: seq<HttpStep>)
    requires HttpInit(s) && CanRunHttp(s, run)
    ensures RunHttp(s, run).serve.written <= RunHttp(s, run).pump.read
  {
    HttpReached(s, run);
    InvServed(RunHttp(s, run));
  }

  lemma InvServed(t: Http)
    requires HttpInv(t)
    ensures t.serve.written <= Payload(t.ch.b.loc.got) <= Payload(t.ch.a.loc.sent) <= t.pump.read
  {
    InvPrefix(t.ch);
    var got, sent := t.ch.b.loc.got, t.ch.a.loc.sent;
    assert sent == got + sent[|got|..];
    AppendPayload(got, sent[|got|..]);
  }

  /** Neither end overruns the other, whatever the claim timer does. */
  lemma HttpNeverOverruns(s: Http, run: seq<HttpStep>)
    requires HttpInit(s) && CanRunHttp(s, run)
    ensures !Overrun(RunHttp(s, run).ch) && !Overrun(Flip(RunHttp(s, run).ch))
  {
    HttpReached(s, run);
    InvNeverOverruns(RunHttp(s, run));
  }

  lemma InvNeverOverruns(t: Http)
    requires HttpInv(t)
    ensures !Overrun(t.ch) && !Overrun(Flip(t.ch))
  {
    InvNoOverrun(t.ch);
    FlipInv(t.ch);
    InvNoOverrun(Flip(t.ch));
  }

  /** A close sent by the edge does not end the connector's session: while the
      connection is up, the connector's session ends exactly when the pump does, of
      its own accord. docs/architecture.md says otherwise. */
  lemma PeerCloseDoesNotReachThePump(s: Http, run: seq<HttpStep>)
    requires HttpInit(s) && CanRunHttp(s, run)
    requires !RunHttp(s, run).ch.a.port.wrBroken
    ensures Over(RunHttp(s, run).ch.a.loc.life) <==> RunHttp(s, run).pump.at.Finished?
  {
    HttpReached(s, run);
  }

  /** The claim timer checks, then acts. While the edge's connection is up and the
      handler has not returned, the session is taken from under the handler if and
      only if the timer has run to its end; a session that was claimed before the
      check stays; and one that was claimed after it is lost, for the timer can go on
      to remove it whatever the handler does. */
  lemma ClaimIsSafeExactlyBeforeCheck(s: Http, run: seq<HttpStep>)
    requires HttpInit(s) && CanRunHttp(s, run)
    requires InUse(RunHttp(s, run))
    ensures var t := RunHttp(s, run);
      && (Over(t.ch.b.loc.life) <==> t.serve.timer.Discarded?)
      && (t.serve.claimedUnder.Armed? <==> t.ch.b.loc.life.Live? && !DiscardAhead(t))
  {
    HttpReached(s, run);
    InvClaim(RunHttp(s, run));
  }

  /** Claimed, with the handler still at it and the edge's connection up. */
  predicate InUse(t: Http) {
    !t.serve.at.Free() && !t.serve.at.Gone? && !t.ch.b.port.wrBroken
  }

  /** The timer is about to remove the session, and can. */
  predicate DiscardAhead(t: Http) {
    || CanHttp(t, OfServe(TimerRemoves))
    || (CanHttp(t, OfServe(TimerReports)) && CanHttp(DoHttp(t, OfServe(TimerReports)), OfServe(TimerRemoves)))
  }

  lemma InvClaim(t: Http)
    requires InUse(t) && ServeFits(t.ch.b.loc, t.serve) && EdgeOwns(t.ch.b, t.serve) && !t.ch.b.loc.opener
    ensures Over(t.ch.b.loc.life) <==> t.serve.timer.Discarded?
    ensures t.serve.claimedUnder.Armed? <==> t.ch.b.loc.life.Live? && !DiscardAhead(t)
  {
  }

  lemma {:induction false} RunTwo(s: Http, x: seq<HttpStep>, y: seq<HttpStep>)
    requires CanRunHttp(s, x) && CanRunHttp(RunHttp(s, x), y)
    ensures CanRunHttp(s, x + y) && RunHttp(s, x + y) == RunHttp(RunHttp(s, x), y)
    decreases |x|
  {
    if x == [] {
      assert x + y == y;
    } else {
      assert (x + y)[0] == x[0] && (x + y)[1..] == x[1..] + y;
      RunTwo(DoHttp(s, x[0]), x[1..], y);
    }
  }

  /** A run with one more step. */
  lemma Then(s: Http, run: seq<HttpStep>, st: HttpStep) returns (longer: seq<HttpStep>)
    requires CanRunHttp(s, run) && CanHttp(RunHttp(s, run), st)
    ensures longer == run + [st]
    ensures CanRunHttp(s, longer) && RunHttp(s, longer) == DoHttp(RunHttp(s, run), st)
  {
    longer := run + [st];
    assert [st][1..] == [];
    assert CanRunHttp(DoHttp(RunHttp(s, run), st), []);
    RunTwo(s, run, [st]);
  }

  /** The session as the edge has accepted it. */
  predicate JustAccepted(s: Http) {
    && s.serve == Serve(Unclaimed, [], Serving, Armed, Armed)
    && s.ch.b.loc.life.Live? && !s.ch.b.loc.opener
  }

  lemma CanBeAccepted(s: Http) returns (run: seq<HttpStep>)
    requires HttpInit(s)
    ensures CanRunHttp(s, run) && JustAccepted(RunHttp(s, run))
    ensures RunHttp(s, run).pump == s.pump && RunHttp(s, run).ch.a.port == OPEN_PORT
    ensures forall i :: 0 <= i < |run| ==> run[i].OfLink? && !run[i].act.BreakWrites? && !run[i].act.StopReader?
  {
    run := Then(s, [], OfLink(Left, Register));
    run := Then(s, run, OfLink(Left, AnnounceOpen(Open("r", "http-stream", []))));
    run := Then(s, run, OfLink(Right, LookUp(Accept)));
  }

  lemma ClaimAfterCheck(s: Http) returns (run: seq<HttpStep>)
    requires JustAccepted(s)
    ensures CanRunHttp(s, run) && TooLate(RunHttp(s, run))
  {
    run := Then(s, [], OfServe(FindSession));
    run := Then(s, run, OfServe(TimerFires));
    run := Then(s, run, OfServe(Claim));
  }

  predicate TooLate(s: Http) {
    s.serve.at.Selecting? && s.serve.timer.Decided? && s.ch.b.loc.life.Live? && !s.ch.b.loc.opener
  }

  lemma DiscardClaimed(s: Http) returns (run: seq<HttpStep>)
    requires TooLate(s)
    ensures CanRunHttp(s, run)
    ensures RunHttp(s, run).serve.at.Selecting? && RunHttp(s, run).ch.b.loc.life.Done?
  {
    run := Then(s, [], OfServe(TimerReports));
    run := Then(s, run, OfServe(TimerRemoves));
    run := Then(s, run, OfLink(Right, MarkDone));
  }

  /** The other case is real: a session that has just been claimed is discarded. */
  lemma ClaimedButDiscarded(s: Http) returns (run: seq<HttpStep>)
    requires HttpInit(s)
    ensures CanRunHttp(s, run)
    ensures RunHttp(s, run).serve.at.Selecting? && RunHttp(s, run).ch.b.loc.life.Done?
  {
    var x := CanBeAccepted(s);
    var y := ClaimAfterCheck(RunHttp(s, x));
    RunTwo(s, x, y);
    var z := DiscardClaimed(RunHttp(s, x + y));
    RunTwo(s, x + y, z);
    run := x + y + z;
  }
}
