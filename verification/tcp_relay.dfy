/** RelayConn at both ends of a session. Each end has two goroutines: the reader
    (socket to session) and the main loop (session to socket). Every select may
    take any ready case. internal/datatunnel/relay.go */
module TcpRelay {
  import opened Frames
  import opened Channel

  const RELAY_BUFFER: nat := 32 * 1024

  /** What comes with a chunk, or goes into readResult; NoEnd: nothing. */
  datatype ReadEnd = NoEnd | EndOfInput | ReadError | SendError

  datatype ReaderAt =
    | NotStarted
    | Reading
    | Want(chunk: Bytes, next: ReadEnd)
    | Have(chunk: Bytes, next: ReadEnd)
    | Exited

  /** The reader goroutine. unread: what the socket has still to deliver; read:
      the bytes read so far; dropped: the last chunk read could not be sent;
      result: the content of readResult. */
  datatype Reader = Reader(at: ReaderAt, unread: Bytes, read: Bytes, dropped: bool, result: ReadEnd)

  /** Idle: the session is being opened, or the backend dialed. Leaving, Closing
      and Removing are the deferred calls, in their order. */
  datatype LoopAt =
    | Idle | Selecting | Writing(chunk: Bytes) | Acking | SendingEof
    | Leaving | Closing | Removing | Gone
  {
    predicate Ending() { Leaving? || Closing? || Removing? || Gone? }
  }

  /** The main loop. written: the bytes written to the socket so far; left: the
      read result the loop returned for, if it did. */
  datatype Loop = Loop(at: LoopAt, localEof: bool, remoteEof: bool, written: Bytes,
                       writeClosed: bool, sockClosed: bool, writeFailed: bool, left: ReadEnd)

  datatype Relay = Relay(rd: Reader, lp: Loop)

  datatype Tcp = Tcp(ch: Channel, a: Relay, b: Relay)

  datatype ReaderAct =
    | ReadSocket(n: nat, end: ReadEnd)
    | GetCredit
    | SeeClosed
    | WriteData

  datatype LoopAct =
    | Dialed
    | DialFailed
    | TakeResult
    | SendEof
    | TakeNext
    | WriteSocket(n: nat, ok: bool)
    | Acknowledge
    | Quit                 // ctx.Done, or the idle timer expired
    | SeeDone
    | CloseSocket
    | SendClose
    | Remove

  datatype RelayAct =
    | OfReader(ra: ReaderAct)
    | OfLoop(la: LoopAct)
    | OfLink(act: Act)     // the link's reader, Open, or teardown

  datatype RelayStep = RelayStep(side: Side, act: RelayAct)

  function Turn(s: Tcp): Tcp { Tcp(Flip(s.ch), s.b, s.a) }

  function NewRelay(input: Bytes): Relay {
    Relay(Reader(NotStarted, input, [], false, NoEnd),
          Loop(Idle, false, false, [], false, false, false, NoEnd))
  }

  predicate TcpInit(s: Tcp) {
    Init(s.ch) && s.a == NewRelay(s.a.rd.unread) && s.b == NewRelay(s.b.rd.unread)
  }

  // The reader goroutine.

  predicate ReaderAtAct(l: Local, r: Relay, act: ReaderAct) {
    match act
    case ReadSocket(n, end) =>
      && r.rd.at.Reading? && n <= |r.rd.unread| && n <= RELAY_BUFFER
      && (n == 0 ==> !end.NoEnd?)
      && !end.SendError?
      && (end.EndOfInput? ==> n == |r.rd.unread|)
      && (r.lp.sockClosed ==> n == 0 && end.ReadError?)
    case GetCredit => r.rd.at.Want?
    case SeeClosed => r.rd.at.Want? && l.life.Done?
    case WriteData => r.rd.at.Have?
  }

  function ReaderCall(rd: Reader, act: ReaderAct): Call
    requires act.GetCredit? ==> rd.at.Want?
  {
    match act
    case GetCredit => Call(TakeCredit(Data(Binary, rd.at.chunk)))
    case WriteData => Call(WriteHeld)
    case _ => NoCall
  }

  function Report(rd: Reader, end: ReadEnd, dropped: bool): Reader {
    rd.(at := Exited, result := end, dropped := dropped)
  }

  function ReaderNext(wrBroken: bool, rd: Reader, act: ReaderAct): Reader
    requires act.ReadSocket? ==> act.n <= |rd.unread|
    requires act.GetCredit? ==> rd.at.Want?
    requires act.WriteData? ==> rd.at.Have?
  {
    match act
    case ReadSocket(n, end) =>
      Reader(if n > 0 then Want(rd.unread[..n], end) else Exited,
             rd.unread[n..], rd.read + rd.unread[..n], rd.dropped,
             if n > 0 then rd.result else end)
    case GetCredit => rd.(at := Have(rd.at.chunk, rd.at.next))
    case SeeClosed => Report(rd, SendError, true)
    case WriteData =>
      if wrBroken then Report(rd, SendError, true)
      else if !rd.at.next.NoEnd? then Report(rd, rd.at.next, rd.dropped)
      else rd.(at := Reading)
  }

  // The main loop.

  predicate LoopAtAct(l: Local, r: Relay, act: LoopAct) {
    match act
    case Dialed => r.lp.at.Idle? && Usable(l)
    case DialFailed => r.lp.at.Idle? && Usable(l) && !l.opener
    case TakeResult => r.lp.at.Selecting? && !r.rd.result.NoEnd?
    case SendEof => r.lp.at.SendingEof?
    case TakeNext => r.lp.at.Selecting?
    case WriteSocket(n, ok) =>
      r.lp.at.Writing? && n <= |r.lp.at.chunk| && (ok ==> n == |r.lp.at.chunk|)
    case Acknowledge => r.lp.at.Acking?
    case Quit => r.lp.at.Selecting?
    case SeeDone => r.lp.at.Selecting? && l.life.Done?
    case CloseSocket => r.lp.at.Leaving?
    case SendClose => r.lp.at.Closing?
    case Remove => r.lp.at.Removing?
  }

  function LoopCall(l: Local, act: LoopAct): Call {
    match act
    case DialFailed => Call(SendControl(Frame.Error("backend dial failed")))
    case SendEof => Call(SendControl(Eof))
    case TakeNext => Call(TakeFrame)
    case Acknowledge => Call(AckData)
    case SendClose => Call(SendControl(Close(0, [])))
    case Remove => if l.life.Live? then Call(RemoveFromMap) else NoCall
    case _ => NoCall
  }

  /** The loop's reaction to a frame from Recv(). */
  function Received(lp: Loop, f: Frame): Loop {
    match f
    case Data(_, payload) => lp.(at := Writing(payload))
    case Eof => lp.(remoteEof := true, writeClosed := true, at := if lp.localEof then Leaving else lp.at)
    case Close(_, _) => lp.(at := Leaving)
    case Error(_) => lp.(at := Leaving)
    case _ => lp
  }

  function LoopNext(e: End, r: Relay, act: LoopAct): Loop
    requires act.TakeNext? ==> e.loc.q.recv != []
    requires act.WriteSocket? ==> r.lp.at.Writing? && act.n <= |r.lp.at.chunk|
  {
    var lp := r.lp;
    match act
    case Dialed => lp.(at := Selecting)
    case DialFailed => lp.(at := Removing)
    case TakeResult =>
      if r.rd.result.EndOfInput? then lp.(localEof := true, at := SendingEof)
      else lp.(left := r.rd.result, at := Leaving)
    case SendEof => lp.(at := if e.port.wrBroken || lp.remoteEof then Leaving else Selecting)
    case TakeNext => Received(lp, e.loc.q.recv[0])
    case WriteSocket(n, ok) =>
      lp.(written := lp.written + lp.at.chunk[..n], at := if ok then Acking else Leaving, writeFailed := !ok)
    case Acknowledge => lp.(at := Selecting)
    case Quit => lp.(at := Leaving)
    case SeeDone => lp.(at := Leaving)
    case CloseSocket => lp.(at := Closing, sockClosed := true)
    case SendClose => lp.(at := Removing)
    case Remove => lp.(at := Gone)
  }

  /** The loop starts the reader, and empties readResult. */
  function LoopOnReader(rd: Reader, act: LoopAct): Reader {
    if act.Dialed? then rd.(at := Reading)
    else if act.TakeResult? then rd.(result := NoEnd)
    else rd
  }

  // The two ends.

  predicate AtAct(e: End, r: Relay, act: RelayAct) {
    match act
    case OfReader(ra) => ReaderAtAct(e.loc, r, ra)
    case OfLoop(la) => LoopAtAct(e.loc, r, la)
    case OfLink(act) => LinkMay(e, act)
  }

  function Lower(e: End, r: Relay, act: RelayAct): Call
    requires AtAct(e, r, act)
  {
    match act
    case OfReader(ra) => ReaderCall(r.rd, ra)
    case OfLoop(la) => LoopCall(e.loc, la)
    case OfLink(act) => Call(act)
  }

  function Next(e: End, r: Relay, act: RelayAct): Relay
    requires AtAct(e, r, act) && (act == OfLoop(TakeNext) ==> e.loc.q.recv != [])
  {
    match act
    case OfReader(ra) => Relay(ReaderNext(e.port.wrBroken, r.rd, ra), r.lp)
    case OfLoop(la) => Relay(LoopOnReader(r.rd, la), LoopNext(e, r, la))
    case OfLink(_) => r
  }

  predicate CanRelay(s: Tcp, act: RelayAct) {
    && AtAct(s.ch.a, s.a, act)
    && (var call := Lower(s.ch.a, s.a, act); call.Call? ==> Enabled(s.ch, call.act))
  }

  function Relayed(s: Tcp, act: RelayAct): Tcp
    requires CanRelay(s, act)
  {
    var call := Lower(s.ch.a, s.a, act);
    Tcp(if call.Call? then Apply(s.ch, call.act) else s.ch, Next(s.ch.a, s.a, act), s.b)
  }

  predicate CanDo(s: Tcp, st: RelayStep) {
    CanRelay(if st.side.Left? then s else Turn(s), st.act)
  }

  function DoRelay(s: Tcp, st: RelayStep): Tcp
    requires CanDo(s, st)
  {
    if st.side.Left? then Relayed(s, st.act) else Turn(Relayed(Turn(s), st.act))
  }

  predicate CanRunTcp(s: Tcp, run: seq<RelayStep>)
    decreases |run|
  {
    run == [] || (CanDo(s, run[0]) && CanRunTcp(DoRelay(s, run[0]), run[1..]))
  }

  function RunTcp(s: Tcp, run: seq<RelayStep>): Tcp
    requires CanRunTcp(s, run)
    decreases |run|
  {
    if run == [] then s else RunTcp(DoRelay(s, run[0]), run[1..])
  }
}
