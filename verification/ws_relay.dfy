/** RelayWebSocket at both ends of a session: messages with their kind, and close
    codes. internal/datatunnel/relay.go */
module WsRelay {
  import opened Frames
  import opened Channel

  /** What goes into readResult: the peer's close, another read error, or a failed
      SendData. */
  datatype ReadEnd = NoEnd | PeerClose(code: nat, text: Bytes) | ReadError | SendError

  datatype ReaderAt =
    | NotStarted | Reading | Want(message: Frame) | Have(message: Frame) | Exited

  /** read: the messages read so far, each as the data frame that carries it. */
  datatype Reader = Reader(at: ReaderAt, read: seq<Frame>, dropped: bool, result: ReadEnd)

  /** RelayingCode and RemovingEarly are CloseWithCode; TellingSocket writes the
      close that came over the session to the WebSocket. Leaving, Closing and
      Removing are the deferred calls. */
  datatype LoopAt =
    | Idle | Selecting | Writing(message: Frame) | Acking
    | RelayingCode | RemovingEarly | TellingSocket(close: Frame)
    | Leaving | Closing | Removing | Gone
  {
    predicate Ending() { Leaving? || Closing? || Removing? || Gone? }

    predicate Looping() { Selecting? || Writing? || Acking? }
  }

  /** written: the messages written to the WebSocket; told: the close frame written
      to it; relayed: CloseWithCode has tried to write. */
  datatype Loop = Loop(at: LoopAt, written: seq<Frame>, told: Slot, relayed: bool, sockClosed: bool, writeFailed: bool,
                       left: ReadEnd)

  datatype Relay = Relay(rd: Reader, lp: Loop)

  datatype Ws = Ws(ch: Channel, a: Relay, b: Relay)

  datatype ReaderAct =
    | ReadMessage(message: Frame)
    | ReadFails(end: ReadEnd)
    | GetCredit
    | SeeClosed
    | WriteData

  datatype LoopAct =
    | Dialed
    | DialFailed
    | TakeResult
    | RelayCode
    | RemoveEarly
    | TakeNext
    | WriteSocket(ok: bool)
    | Acknowledge
    | TellSocket
    | Quit
    | SeeDone
    | CloseSocket
    | SendClose
    | Remove

  datatype RelayAct = OfReader(ra: ReaderAct) | OfLoop(la: LoopAct) | OfLink(act: Act)

  datatype RelayStep = RelayStep(side: Side, act: RelayAct)

  function Turn(s: Ws): Ws { Ws(Flip(s.ch), s.b, s.a) }

  const NEW_RELAY := Relay(Reader(NotStarted, [], false, NoEnd), Loop(Idle, [], Empty, false, false, false, NoEnd))

  predicate WsInit(s: Ws) {
    Init(s.ch) && s.a == s.b == NEW_RELAY
  }

  /** The codes the WebSocket library reports for a connection closed by its peer. */
  predicate ReportedCode(code: nat) { 1000 <= code <= 4999 }

  // The reader goroutine.

  predicate ReaderAtAct(l: Local, rd: Reader, act: ReaderAct) {
    match act
    case ReadMessage(message) => rd.at.Reading? && message.Data?
    case ReadFails(end) => rd.at.Reading? && (end.ReadError? || (end.PeerClose? && ReportedCode(end.code)))
    case GetCredit => rd.at.Want?
    case SeeClosed => rd.at.Want? && l.life.Done?
    case WriteData => rd.at.Have?
  }

  function ReaderCall(rd: Reader, act: ReaderAct): Call
    requires act.GetCredit? ==> rd.at.Want?
  {
    match act
    case GetCredit => Call(TakeCredit(rd.at.message))
    case WriteData => Call(WriteHeld)
    case _ => NoCall
  }

  function ReaderNext(wrBroken: bool, rd: Reader, act: ReaderAct): Reader
    requires act.GetCredit? ==> rd.at.Want?
  {
    match act
    case ReadMessage(message) => rd.(at := Want(message), read := rd.read + [message])
    case ReadFails(end) => rd.(at := Exited, result := end)
    case GetCredit => rd.(at := Have(rd.at.message))
    case SeeClosed => rd.(at := Exited, result := SendError, dropped := true)
    case WriteData =>
      if wrBroken then rd.(at := Exited, result := SendError, dropped := true) else rd.(at := Reading)
  }

  // The main loop.

  predicate LoopAtAct(l: Local, r: Relay, act: LoopAct) {
    match act
    case Dialed => r.lp.at.Idle? && Usable(l)
    case DialFailed => r.lp.at.Idle? && Usable(l) && !l.opener
    case TakeResult => r.lp.at.Selecting? && !r.rd.result.NoEnd?
    case RelayCode => r.lp.at.RelayingCode? && r.lp.left.PeerClose?
    case RemoveEarly => r.lp.at.RemovingEarly?
    case TakeNext => r.lp.at.Selecting?
    case WriteSocket(_) => r.lp.at.Writing?
    case Acknowledge => r.lp.at.Acking?
    case TellSocket => r.lp.at.TellingSocket?
    case Quit => r.lp.at.Selecting?
    case SeeDone => r.lp.at.Selecting? && l.life.Done?
    case CloseSocket => r.lp.at.Leaving?
    case SendClose => r.lp.at.Closing?
    case Remove => r.lp.at.Removing?
  }

  function LoopCall(l: Local, lp: Loop, act: LoopAct): Call
    requires act.RelayCode? ==> lp.left.PeerClose?
  {
    match act
    case DialFailed => Call(SendControl(Frame.Error("backend websocket dial failed")))
    case RelayCode => Call(SendControl(Close(lp.left.code, lp.left.text)))
    case TakeNext => Call(TakeFrame)
    case Acknowledge => Call(AckData)
    case SendClose => Call(SendControl(Close(0, [])))
    case RemoveEarly => if l.life.Live? then Call(RemoveFromMap) else NoCall
    case Remove => if l.life.Live? then Call(RemoveFromMap) else NoCall
    case _ => NoCall
  }

  function Received(lp: Loop, f: Frame): Loop {
    match f
    case Data(_, _) => lp.(at := Writing(f))
    case Close(code, _) => lp.(at := if code != 0 then TellingSocket(f) else Leaving)
    case Eof => lp.(at := Leaving)
    case Error(_) => lp.(at := Leaving)
    case _ => lp
  }

  function LoopNext(l: Local, r: Relay, act: LoopAct): Loop
    requires act.TakeNext? ==> l.q.recv != []
    requires act.WriteSocket? ==> r.lp.at.Writing?
    requires act.TellSocket? ==> r.lp.at.TellingSocket?
  {
    var lp := r.lp;
    match act
    case Dialed => lp.(at := Selecting)
    case DialFailed => lp.(at := Removing)
    case TakeResult =>
      lp.(left := r.rd.result, at := if r.rd.result.PeerClose? then RelayingCode else Leaving)
    case RelayCode => lp.(at := RemovingEarly, relayed := true)
    case RemoveEarly => lp.(at := Leaving)
    case TakeNext => Received(lp, l.q.recv[0])
    case WriteSocket(ok) =>
      if ok then lp.(written := lp.written + [lp.at.message], at := Acking)
      else lp.(at := Leaving, writeFailed := true)
    case Acknowledge => lp.(at := Selecting)
    case TellSocket => lp.(told := Full(lp.at.close), at := Leaving)
    case Quit => lp.(at := Leaving)
    case SeeDone => lp.(at := Leaving)
    case CloseSocket => lp.(at := Closing, sockClosed := true)
    case SendClose => lp.(at := Removing)
    case Remove => lp.(at := Gone)
  }

  function LoopOnReader(rd: Reader, act: LoopAct): Reader {
    if act.Dialed? then rd.(at := Reading)
    else if act.TakeResult? then rd.(result := NoEnd)
    else rd
  }

  // The two ends.

  predicate AtAct(e: End, r: Relay, act: RelayAct) {
    match act
    case OfReader(ra) => ReaderAtAct(e.loc, r.rd, ra)
    case OfLoop(la) => LoopAtAct(e.loc, r, la)
    case OfLink(act) => LinkMay(e, act)
  }

  function Lower(e: End, r: Relay, act: RelayAct): Call
    requires AtAct(e, r, act)
  {
    match act
    case OfReader(ra) => ReaderCall(r.rd, ra)
    case OfLoop(la) => LoopCall(e.loc, r.lp, la)
    case OfLink(act) => Call(act)
  }

  function Next(e: End, r: Relay, act: RelayAct): Relay
    requires AtAct(e, r, act) && (act == OfLoop(TakeNext) ==> e.loc.q.recv != [])
  {
    match act
    case OfReader(ra) => Relay(ReaderNext(e.port.wrBroken, r.rd, ra), r.lp)
    case OfLoop(la) => Relay(LoopOnReader(r.rd, la), LoopNext(e.loc, r, la))
    case OfLink(_) => r
  }

  predicate CanRelay(s: Ws, act: RelayAct) {
    && AtAct(s.ch.a, s.a, act)
    && (var call := Lower(s.ch.a, s.a, act); call.Call? ==> Enabled(s.ch, call.act))
  }

  function Relayed(s: Ws, act: RelayAct): Ws
    requires CanRelay(s, act)
  {
    var call := Lower(s.ch.a, s.a, act);
    Ws(if call.Call? then Apply(s.ch, call.act) else s.ch, Next(s.ch.a, s.a, act), s.b)
  }

  predicate CanDo(s: Ws, st: RelayStep) {
    CanRelay(if st.side.Left? then s else Turn(s), st.act)
  }

  function DoRelay(s: Ws, st: RelayStep): Ws
    requires CanDo(s, st)
  {
    if st.side.Left? then Relayed(s, st.act) else Turn(Relayed(Turn(s), st.act))
  }

  predicate CanRunWs(s: Ws, run: seq<RelayStep>)
    decreases |run|
  {
    run == [] || (CanDo(s, run[0]) && CanRunWs(DoRelay(s, run[0]), run[1..]))
  }

  function RunWs(s: Ws, run: seq<RelayStep>): Ws
    requires CanRunWs(s, run)
    decreases |run|
  {
    if run == [] then s else RunWs(DoRelay(s, run[0]), run[1..])
  }
}

/** What RelayWebSocket keeps whatever goes wrong. */
module WsSafety {
  import opened Frames
  import opened Window
  import opened Channel
  import opened ChannelInvariants
  import opened FlowControl
  import opened WsRelay

  function Spent(lp: Loop): nat {
    (if lp.relayed then 1 else 0) + (if lp.at.Removing? || lp.at.Gone? then 1 else 0)
  }

  predicate ReaderFits(l: Local, rd: Reader) {
    && l.hold == (if rd.at.Have? then Full(rd.at.message) else Empty)
    && (rd.at.Have? || rd.at.Want? ==> rd.at.message.Data?)
    && (!rd.result.NoEnd? ==> rd.at.Exited?)
    && (rd.dropped ==> rd.at.Exited?)
  }

  predicate LoopFits(l: Local, r: Relay) {
    && (!r.lp.at.Idle? ==> Usable(l) && !l.life.Refused?)
    && (r.lp.at.Idle? ==> r.rd.at.NotStarted? && l.got == [])
    && (r.rd.at.NotStarted? ==> r.lp.at.Idle? || r.lp.at.Ending())
    && (r.lp.at.Writing? || r.lp.at.Acking? ==> l.busy)
    && (r.lp.at.Selecting? || r.lp.at.Idle? ==> !l.busy)
    && (r.lp.relayed ==> r.lp.at.RemovingEarly? || r.lp.at.Ending())
    && (r.lp.at.Looping() || r.lp.at.Idle? ==> r.lp.left.NoEnd?)
    && (if l.life.Refused? then l.ctl <= 1 && !Usable(l) else l.ctl == Spent(r.lp))
  }

  /** The messages read are the messages sent, plus the one the reader holds. */
  predicate Sending(l: Local, rd: Reader) {
    if rd.at.Want? || rd.at.Have? then rd.read == DataOnly(l.sent) + [rd.at.message]
    else if rd.dropped then DataOnly(l.sent) <= rd.read
    else rd.read == DataOnly(l.sent)
  }

  predicate ReaderEnds(r: Relay) {
    && (r.rd.result.PeerClose? || r.lp.left.PeerClose? ==> r.rd.at.Exited? && !r.rd.dropped)
    && (r.lp.left.PeerClose? ==> r.rd.result.NoEnd?)
    && (r.lp.at.RelayingCode? || r.lp.at.RemovingEarly? ==> r.lp.left.PeerClose?)
    && (r.lp.left.PeerClose? && !r.lp.relayed ==> r.lp.at.RelayingCode?)
    && (r.lp.relayed ==> r.lp.left.PeerClose?)
    && (r.rd.at.Exited? ==> !r.rd.result.NoEnd? || !r.lp.left.NoEnd?)
  }

  /** Every close with a code is the local one, nothing precedes it that is a close,
      and no data follows it. */
  predicate SentEnds(l: Local, lp: Loop) {
    && (forall i :: 0 <= i < |l.sent| && l.sent[i].Close? ==> lp.relayed || lp.at.Removing? || lp.at.Gone?)
    && (forall i :: 0 <= i < |l.sent| && l.sent[i].Close? && l.sent[i].code != 0 ==>
          lp.left == PeerClose(l.sent[i].code, l.sent[i].text))
    && (lp.left.PeerClose? ==>
          && (forall i, j :: 0 <= i < j < |l.sent| && l.sent[i].Close? ==> !l.sent[j].Data?)
          && (forall i :: 0 <= i < |l.sent| && l.sent[i].Close? && FirstClose(l.sent, i) ==>
                l.sent[i] == Close(lp.left.code, lp.left.text)))
  }

  /** CloseWithCode has written its frame, or no frame will be written any more. */
  predicate CodeWritten(e: End, lp: Loop) {
    lp.relayed ==> e.port.wrBroken || HasClose(e.loc.sent)
  }

  predicate HasClose(q: seq<Frame>) { exists i :: 0 <= i < |q| && q[i].Close? }

  predicate FirstClose(q: seq<Frame>, i: nat)
    requires i < |q|
  {
    forall j :: 0 <= j < i ==> !q[j].Close?
  }

  predicate Receiving(l: Local, lp: Loop) {
    if lp.at.Writing? then lp.at.message.Data? && lp.written + [lp.at.message] == DataOnly(l.got) && !lp.writeFailed
    else if lp.writeFailed then lp.at.Ending() && lp.written <= DataOnly(l.got)
    else lp.written == DataOnly(l.got)
  }

  predicate GotEnds(l: Local, lp: Loop) {
    && (lp.at.TellingSocket? ==> lp.at.close.Close? && lp.at.close.code != 0 && lp.at.close in l.got && !lp.writeFailed)
    && (lp.told.Full? ==>
          lp.told.frame.Close? && lp.told.frame.code != 0 && lp.told.frame in l.got && lp.at.Ending() && !lp.writeFailed)
  }

  /** A relay that was dialed closes its WebSocket on its way out, and not before. */
  predicate ClosesSocket(r: Relay) {
    && (r.lp.at.Closing? || r.lp.at.Removing? || r.lp.at.Gone? ==> r.lp.sockClosed || r.rd.at.NotStarted?)
    && (r.lp.sockClosed ==> r.lp.at.Closing? || r.lp.at.Removing? || r.lp.at.Gone?)
  }

  /** Whatever ends the session at the peer ends the loop here. */
  predicate HearsEnd(l: Local, lp: Loop) {
    forall i :: 0 <= i < |l.got| && l.got[i].Control() ==> lp.at.TellingSocket? || lp.at.Ending()
  }

  predicate RelayInv(e: End, r: Relay) {
    && ClosesSocket(r) && HearsEnd(e.loc, r.lp)
    && ReaderFits(e.loc, r.rd) && LoopFits(e.loc, r) && Sending(e.loc, r.rd) && ReaderEnds(r)
    && SentEnds(e.loc, r.lp) && CodeWritten(e, r.lp)
    && Receiving(e.loc, r.lp) && GotEnds(e.loc, r.lp)
  }

  predicate WsInv(s: Ws) {
    Inv(s.ch) && RelayInv(s.ch.a, s.a) && RelayInv(s.ch.b, s.b)
  }

  lemma ByLink(e: End, e': End, r: Relay)
    requires RelayInv(e, r) && Undisturbed(e.loc, e'.loc) && (e.port.wrBroken ==> e'.port.wrBroken)
    ensures RelayInv(e', r)
  {
  }

  // The reader goroutine.

  predicate ReaderCan(e: End, r: Relay, act: ReaderAct) {
    ReaderAtAct(e.loc, r.rd, act) && (var call := ReaderCall(r.rd, act); call.Call? ==> CanAct(e, call.act))
  }

  function AfterReader(e: End, r: Relay, act: ReaderAct): Local
    requires ReaderCan(e, r, act)
  {
    var call := ReaderCall(r.rd, act);
    if call.Call? then Effect(e, call.act).end.loc else e.loc
  }

  lemma ReaderKeepsFit(e: End, r: Relay, act: ReaderAct)
    requires ReaderCan(e, r, act) && ReaderFits(e.loc, r.rd) && LoopFits(e.loc, r) && ReaderEnds(r)
    ensures var l', rd' := AfterReader(e, r, act), ReaderNext(e.port.wrBroken, r.rd, act);
      ReaderFits(l', rd') && LoopFits(l', r.(rd := rd')) && ReaderEnds(r.(rd := rd')) && l'.got == e.loc.got
  {
  }

  lemma ReaderKeepsSending(e: End, r: Relay, act: ReaderAct)
    requires ReaderCan(e, r, act) && ReaderFits(e.loc, r.rd) && Sending(e.loc, r.rd)
    ensures Sending(AfterReader(e, r, act), ReaderNext(e.port.wrBroken, r.rd, act))
  {
    if act.WriteData? {
      AppendData(e.loc.sent, [e.loc.hold.frame]);
    }
  }

  lemma ReaderKeepsSentEnds(e: End, r: Relay, act: ReaderAct)
    requires ReaderCan(e, r, act) && ReaderFits(e.loc, r.rd) && ReaderEnds(r) && SentEnds(e.loc, r.lp)
    ensures SentEnds(AfterReader(e, r, act), r.lp)
  {
  }

  lemma ReaderKeepsCode(e: End, r: Relay, act: ReaderAct)
    requires ReaderCan(e, r, act) && CodeWritten(e, r.lp)
    ensures CodeWritten(e.(loc := AfterReader(e, r, act)), r.lp)
  {
    var sent, sent' := e.loc.sent, AfterReader(e, r, act).sent;
    assert forall i :: 0 <= i < |sent| ==> sent'[i] == sent[i];
  }

  // The main loop.

  predicate LoopCan(e: End, r: Relay, act: LoopAct) {
    LoopAtAct(e.loc, r, act) && (var call := LoopCall(e.loc, r.lp, act); call.Call? ==> CanAct(e, call.act))
  }

  function AfterLoop(e: End, r: Relay, act: LoopAct): Local
    requires LoopCan(e, r, act)
  {
    var call := LoopCall(e.loc, r.lp, act);
    if call.Call? then Effect(e, call.act).end.loc else e.loc
  }

  function RelayAfterLoop(e: End, r: Relay, act: LoopAct): Relay
    requires LoopCan(e, r, act)
  {
    Relay(LoopOnReader(r.rd, act), LoopNext(e.loc, r, act))
  }

  lemma LoopKeepsFit(e: End, r: Relay, act: LoopAct)
    requires LoopCan(e, r, act) && ReaderFits(e.loc, r.rd) && LoopFits(e.loc, r) && ReaderEnds(r)
    ensures var l', r' := AfterLoop(e, r, act), RelayAfterLoop(e, r, act);
      ReaderFits(l', r'.rd) && LoopFits(l', r')
  {
  }

  lemma LoopKeepsClosing(e: End, r: Relay, act: LoopAct)
    requires LoopCan(e, r, act) && ClosesSocket(r) && LoopFits(e.loc, r)
    ensures ClosesSocket(RelayAfterLoop(e, r, act))
  {
  }

  lemma LoopKeepsHearing(e: End, r: Relay, act: LoopAct)
    requires LoopCan(e, r, act) && LoopFits(e.loc, r) && HearsEnd(e.loc, r.lp) && ReaderEnds(r)
    ensures HearsEnd(AfterLoop(e, r, act), LoopNext(e.loc, r, act))
  {
    if act.TakeNext? {
      assert AfterLoop(e, r, act).got == e.loc.got + [e.loc.q.recv[0]];
    } else {
      assert AfterLoop(e, r, act).got == e.loc.got;
    }
  }

  lemma LoopKeepsReaderEnds(e: End, r: Relay, act: LoopAct)
    requires LoopCan(e, r, act) && ReaderFits(e.loc, r.rd) && LoopFits(e.loc, r) && ReaderEnds(r)
    ensures ReaderEnds(RelayAfterLoop(e, r, act))
  {
  }

  /** The loop writes control frames only. */
  predicate Speaks(act: LoopAct) { act.DialFailed? || act.RelayCode? || act.SendClose? }

  lemma SpeakingKeepsSending(e: End, r: Relay, act: LoopAct)
    requires LoopCan(e, r, act) && Speaks(act) && Sending(e.loc, r.rd)
    ensures Sending(AfterLoop(e, r, act), LoopOnReader(r.rd, act))
  {
    var sent, f := e.loc.sent, LoopCall(e.loc, r.lp, act).act.control;
    assert AfterLoop(e, r, act).sent == sent || AfterLoop(e, r, act).sent == sent + [f];
    NoMessage(sent, f);
  }

  lemma NoMessage(q: seq<Frame>, f: Frame)
    requires !f.Data?
    ensures DataOnly(q + [f]) == DataOnly(q)
  {
    AppendData(q, [f]);
  }

  lemma LoopKeepsSending(e: End, r: Relay, act: LoopAct)
    requires LoopCan(e, r, act) && !Speaks(act) && LoopFits(e.loc, r) && Sending(e.loc, r.rd)
    ensures Sending(AfterLoop(e, r, act), LoopOnReader(r.rd, act))
  {
    assert AfterLoop(e, r, act).sent == e.loc.sent;
  }

  predicate Closes(act: LoopAct) { act.RelayCode? || act.SendClose? }

  lemma LoopKeepsSentEnds(e: End, r: Relay, act: LoopAct)
    requires LoopCan(e, r, act) && LoopFits(e.loc, r) && ReaderEnds(r) && SentEnds(e.loc, r.lp) && !Closes(act)
    ensures SentEnds(AfterLoop(e, r, act), LoopNext(e.loc, r, act))
  {
  }

  lemma CodeKeepsSentEnds(e: End, r: Relay, act: LoopAct)
    requires LoopCan(e, r, act) && LoopFits(e.loc, r) && ReaderEnds(r) && SentEnds(e.loc, r.lp) && act.RelayCode?
    ensures SentEnds(AfterLoop(e, r, act), LoopNext(e.loc, r, act))
  {
  }

  lemma CloseKeepsSentEnds(e: End, r: Relay, act: LoopAct)
    requires LoopCan(e, r, act) && LoopFits(e.loc, r) && ReaderEnds(r) && SentEnds(e.loc, r.lp) && act.SendClose?
    requires CodeWritten(e, r.lp)
    ensures SentEnds(AfterLoop(e, r, act), LoopNext(e.loc, r, act))
  {
    var sent, sent' := e.loc.sent, AfterLoop(e, r, act).sent;
    if sent' != sent {
      assert sent' == sent + [Close(0, [])];
      assert forall i :: 0 <= i < |sent| ==> sent'[i] == sent[i];
      assert r.lp.relayed ==> !FirstClose(sent', |sent|);
    }
  }

  lemma LoopKeepsCode(e: End, r: Relay, act: LoopAct)
    requires LoopCan(e, r, act) && CodeWritten(e, r.lp)
    ensures CodeWritten(e.(loc := AfterLoop(e, r, act)), LoopNext(e.loc, r, act))
  {
    var sent, sent' := e.loc.sent, AfterLoop(e, r, act).sent;
    assert forall i :: 0 <= i < |sent| ==> sent'[i] == sent[i];
    if sent' != sent {
      assert sent'[|sent|] == LoopCall(e.loc, r.lp, act).act.control;
    }
  }

  lemma LoopKeepsReceiving(e: End, r: Relay, act: LoopAct)
    requires LoopCan(e, r, act) && LoopFits(e.loc, r) && Receiving(e.loc, r.lp)
    ensures Receiving(AfterLoop(e, r, act), LoopNext(e.loc, r, act))
  {
    if act.TakeNext? {
      AppendData(e.loc.got, [e.loc.q.recv[0]]);
      assert AfterLoop(e, r, act).got == e.loc.got + [e.loc.q.recv[0]];
    } else {
      assert AfterLoop(e, r, act).got == e.loc.got;
    }
  }

  lemma LoopKeepsGotEnds(e: End, r: Relay, act: LoopAct)
    requires LoopCan(e, r, act) && Receiving(e.loc, r.lp) && GotEnds(e.loc, r.lp)
    ensures GotEnds(AfterLoop(e, r, act), LoopNext(e.loc, r, act))
  {
  }

  // Both ends.

  lemma ReaderKeeps(e: End, r: Relay, act: ReaderAct)
    requires RelayInv(e, r) && ReaderCan(e, r, act)
    ensures RelayInv(e.(loc := AfterReader(e, r, act)), r.(rd := ReaderNext(e.port.wrBroken, r.rd, act)))
  {
    ReaderKeepsCode(e, r, act);
    ReaderKeepsFit(e, r, act);
    ReaderKeepsSending(e, r, act);
    ReaderKeepsSentEnds(e, r, act);
  }

  lemma LoopKeeps(e: End, r: Relay, act: LoopAct)
    requires RelayInv(e, r) && LoopCan(e, r, act)
    ensures RelayInv(e.(loc := AfterLoop(e, r, act)), RelayAfterLoop(e, r, act))
  {
    LoopKeepsFit(e, r, act);
    LoopKeepsClosing(e, r, act);
    LoopKeepsHearing(e, r, act);
    LoopKeepsReaderEnds(e, r, act);
    if Speaks(act) {
      SpeakingKeepsSending(e, r, act);
    } else {
      LoopKeepsSending(e, r, act);
    }
    if act.RelayCode? {
      CodeKeepsSentEnds(e, r, act);
    } else if act.SendClose? {
      CloseKeepsSentEnds(e, r, act);
    } else {
      LoopKeepsSentEnds(e, r, act);
    }
    LoopKeepsCode(e, r, act);
    LoopKeepsReceiving(e, r, act);
    LoopKeepsGotEnds(e, r, act);
  }

  lemma KeptByReader(s: Ws, act: ReaderAct)
    requires RelayInv(s.ch.a, s.a) && CanRelay(s, OfReader(act))
    ensures RelayInv(Relayed(s, OfReader(act)).ch.a, Relayed(s, OfReader(act)).a)
  {
    ReaderKeeps(s.ch.a, s.a, act);
  }

  lemma KeptByLoop(s: Ws, act: LoopAct)
    requires RelayInv(s.ch.a, s.a) && CanRelay(s, OfLoop(act))
    ensures RelayInv(Relayed(s, OfLoop(act)).ch.a, Relayed(s, OfLoop(act)).a)
  {
    LoopKeeps(s.ch.a, s.a, act);
  }

  lemma RelayInvKept(s: Ws, act: RelayAct)
    requires WsInv(s) && CanRelay(s, act)
    ensures RelayInv(Relayed(s, act).ch.a, Relayed(s, act).a)
  {
    match act
    case OfReader(ra) => KeptByReader(s, ra);
    case OfLoop(la) => KeptByLoop(s, la);
    case OfLink(la) =>
      InvNoOverrun(s.ch);
      LinkUndisturbed(s.ch, la);
      ByLink(s.ch.a, Apply(s.ch, la).a, s.a);
  }

  lemma RelayedKeeps(s: Ws, act: RelayAct)
    requires WsInv(s) && CanRelay(s, act)
    ensures WsInv(Relayed(s, act))
  {
    RelayInvKept(s, act);
    var call := Lower(s.ch.a, s.a, act);
    if call.Call? {
      ApplyKeeps(s.ch, call.act);
    }
  }

  lemma WsStepKeeps(s: Ws, st: RelayStep)
    requires WsInv(s) && CanDo(s, st)
    ensures WsInv(DoRelay(s, st))
  {
    if st.side.Left? {
      RelayedKeeps(s, st.act);
    } else {
      FlipInv(s.ch);
      RelayedKeeps(Turn(s), st.act);
      FlipInv(Relayed(Turn(s), st.act).ch);
    }
  }

  lemma {:induction false} WsRunKeeps(s: Ws, run: seq<RelayStep>)
    requires WsInv(s) && CanRunWs(s, run)
    ensures WsInv(RunWs(s, run))
    decreases |run|
  {
    if run != [] {
      WsStepKeeps(s, run[0]);
      WsRunKeeps(DoRelay(s, run[0]), run[1..]);
    }
  }

  lemma WsReached(s: Ws, run: seq<RelayStep>)
    requires WsInit(s) && CanRunWs(s, run)
    ensures WsInv(RunWs(s, run))
  {
    InitInv(s.ch);
    WsRunKeeps(s, run);
  }

  // The theorems, over every run with any fault anywhere.

  /** Messages arrive in order, each with its kind, and none is invented. */
  lemma MessagesInOrder(s: Ws, run: seq<RelayStep>)
    requires WsInit(s) && CanRunWs(s, run)
    ensures RunWs(s, run).b.lp.written <= RunWs(s, run).a.rd.read
  {
    WsReached(s, run);
    InvMessages(RunWs(s, run));
  }

  lemma InvMessages(t: Ws)
    requires WsInv(t)
    ensures t.b.lp.written <= DataOnly(t.ch.b.loc.got) <= DataOnly(t.ch.a.loc.sent) <= t.a.rd.read
  {
    InvPrefix(t.ch);
    DataPrefix(t.ch.b.loc.got, t.ch.a.loc.sent);
  }

  lemma DataPrefix(x: seq<Frame>, y: seq<Frame>)
    requires x <= y
    ensures DataOnly(x) <= DataOnly(y)
  {
    assert y == x + y[|x|..];
    AppendData(x, y[|x|..]);
  }

  /** After a local close error, the first close frame sent carries its code and
      text: the deferred close without a code never precedes it. */
  lemma CodeComesFirst(s: Ws, run: seq<RelayStep>, i: nat)
    requires WsInit(s) && CanRunWs(s, run)
    requires RunWs(s, run).a.lp.left.PeerClose?
    requires i < |RunWs(s, run).ch.a.loc.sent| && RunWs(s, run).ch.a.loc.sent[i].Close?
    requires FirstClose(RunWs(s, run).ch.a.loc.sent, i)
    ensures var left := RunWs(s, run).a.lp.left;
      RunWs(s, run).ch.a.loc.sent[i] == Close(left.code, left.text)
  {
    WsReached(s, run);
  }

  /** Close fidelity, section 5.5.1 of RFC 6455: a close that is written to a
      WebSocket is the one the other WebSocket was closed with, code and text, and
      every message read before it has been written, in order and with its kind. */
  lemma CloseFidelity(s: Ws, run: seq<RelayStep>)
    requires WsInit(s) && CanRunWs(s, run)
    requires RunWs(s, run).b.lp.told.Full?
    ensures var t := RunWs(s, run);
      && t.b.lp.told.frame.Close?
      && t.a.lp.left == PeerClose(t.b.lp.told.frame.code, t.b.lp.told.frame.text)
      && t.b.lp.written == t.a.rd.read
  {
    WsReached(s, run);
    InvFidelity(RunWs(s, run));
  }

  lemma InvFidelity(t: Ws)
    requires WsInv(t) && t.b.lp.told.Full?
    ensures t.b.lp.told.frame.Close?
    ensures t.a.lp.left == PeerClose(t.b.lp.told.frame.code, t.b.lp.told.frame.text)
    ensures t.b.lp.written == t.a.rd.read
  {
    InvPrefix(t.ch);
    var got, sent := t.ch.b.loc.got, t.ch.a.loc.sent;
    var i :| 0 <= i < |got| && got[i] == t.b.lp.told.frame;
    assert sent[i] == got[i];
    var rest := sent[|got|..];
    assert sent == got + rest;
    AppendData(got, rest);
    NoDataNoPayload(rest);
  }

  /** Nobody forgets the WebSocket: in every run, under every fault, a relay that has
      returned has closed it, unless it never got one. */
  lemma ReturnedRelayClosed(s: Ws, run: seq<RelayStep>)
    requires WsInit(s) && CanRunWs(s, run)
    ensures var t := RunWs(s, run);
      && (t.a.lp.at.Gone? && !t.a.rd.at.NotStarted? ==> t.a.lp.sockClosed)
      && (t.b.lp.at.Gone? && !t.b.rd.at.NotStarted? ==> t.b.lp.sockClosed)
  {
    WsReached(s, run);
  }

  /** Whatever ends the session at the peer, a close, a half-close or an error, ends the
      relay here. */
  lemma PeerEndIsHeard(s: Ws, run: seq<RelayStep>)
    requires WsInit(s) && CanRunWs(s, run)
    ensures var t := RunWs(s, run);
      forall f :: f in t.ch.a.loc.got && f.Control() ==> t.a.lp.at.TellingSocket? || t.a.lp.at.Ending()
  {
    WsReached(s, run);
  }

  /** A backend that cannot be dialed is reported to the peer. */
  lemma FailedDialIsTold(s: Ws)
    requires CanRelay(s, OfLoop(DialFailed)) && !s.ch.a.port.wrBroken
    ensures var t := Relayed(s, OfLoop(DialFailed));
      t.ch.ab == s.ch.ab + [Frame.Error("backend websocket dial failed")] && t.a.lp.at.Ending()
  {
  }

  /** A relay that is told to end, by its context or by its idle timer, leaves its loop,
      for good. */
  lemma QuitLeaves(s: Ws)
    requires s.a.lp.at.Selecting?
    ensures var quit := RelayStep(Left, OfLoop(Quit));
      CanDo(s, quit) && forall run :: CanRunWs(DoRelay(s, quit), run) ==> RunWs(DoRelay(s, quit), run).a.lp.at.Ending()
  {
    var t := DoRelay(s, RelayStep(Left, OfLoop(Quit)));
    forall run | CanRunWs(t, run)
      ensures RunWs(t, run).a.lp.at.Ending()
    {
      StaysEnding(t, run);
    }
  }

  lemma {:induction false} StaysEnding(s: Ws, run: seq<RelayStep>)
    requires s.a.lp.at.Ending() && CanRunWs(s, run)
    ensures RunWs(s, run).a.lp.at.Ending()
    decreases |run|
  {
    if run != [] {
      StaysEnding(DoRelay(s, run[0]), run[1..]);
    }
  }

  /** Nor do WebSocket relays ever overrun a receive queue. */
  lemma WsNeverOverruns(s: Ws, run: seq<RelayStep>)
    requires WsInit(s) && CanRunWs(s, run)
    ensures !Overrun(RunWs(s, run).ch) && !Overrun(Flip(RunWs(s, run).ch))
  {
    WsReached(s, run);
    InvNoOverrun(RunWs(s, run).ch);
    FlipInv(RunWs(s, run).ch);
    InvNoOverrun(Flip(RunWs(s, run).ch));
  }
}
