/** What RelayConn keeps whatever goes wrong. */
module TcpSafety {
  import opened Frames
  import opened Window
  import opened Channel
  import opened ChannelInvariants
  import opened FlowControl
  import opened TcpRelay

  /** Control frames the relay has tried to write: its EOF and its close. */
  function Spent(lp: Loop): nat {
    (if lp.localEof && !lp.at.SendingEof? then 1 else 0)
    + (if lp.at.Removing? || lp.at.Gone? then 1 else 0)
  }

  /** The session as its reader goroutine leaves it. */
  predicate ReaderFits(l: Local, rd: Reader) {
    && l.hold == (if rd.at.Have? then Full(Data(Binary, rd.at.chunk)) else Empty)
    && (!rd.result.NoEnd? ==> rd.at.Exited?)
    && (rd.dropped ==> rd.at.Exited?)
  }

  /** The session as its main loop leaves it. */
  predicate LoopFits(l: Local, r: Relay) {
    && (!r.lp.at.Idle? ==> Usable(l) && !l.life.Refused?)
    && (r.lp.at.Idle? ==> r.rd.at.NotStarted? && l.got == [])
    && (r.rd.at.NotStarted? ==> r.lp.at.Idle? || r.lp.at.Ending())
    && (r.lp.at.Writing? || r.lp.at.Acking? ==> l.busy)
    && (r.lp.at.Selecting? || r.lp.at.SendingEof? || r.lp.at.Idle? ==> !l.busy)
    && (r.lp.localEof ==> !r.lp.at.Idle? && r.rd.at.Exited? && r.rd.result.NoEnd?)
    && (r.lp.at.SendingEof? ==> r.lp.localEof)
    && (if l.life.Refused? then l.ctl <= 1 && !Usable(l) else l.ctl == Spent(r.lp))
  }

  /** The bytes read are the bytes sent, plus the chunk the reader holds. */
  predicate Sending(l: Local, rd: Reader) {
    if rd.at.Want? || rd.at.Have? then rd.read == Payload(l.sent) + rd.at.chunk
    else if rd.dropped then Payload(l.sent) <= rd.read
    else rd.read == Payload(l.sent)
  }

  predicate NoDataAfterEof(q: seq<Frame>) {
    forall i, j :: 0 <= i < j < |q| && q[i].Eof? ==> !q[j].Data?
  }

  predicate NoDataAfterClose(q: seq<Frame>) {
    forall i, j :: 0 <= i < j < |q| && q[i].Close? ==> !q[j].Data?
  }

  /** The whole input has been read and handed to the session. */
  predicate Finished(rd: Reader) {
    rd.unread == [] && rd.at.Exited? && !rd.dropped
  }

  predicate ReaderEnds(r: Relay) {
    && ((r.rd.at.Want? || r.rd.at.Have?) ==>
          !r.rd.at.next.SendError? && (r.rd.at.next.EndOfInput? ==> r.rd.unread == []))
    && (r.rd.result.EndOfInput? || r.lp.localEof ==> Finished(r.rd))
    && (r.rd.result.ReadError? || r.lp.left.ReadError? ==> r.rd.at.Exited? && !r.rd.dropped)
    && (!r.lp.left.NoEnd? ==> r.lp.at.Ending())
  }

  predicate SentEnds(l: Local, r: Relay) {
    && (Eof in l.sent ==> r.lp.localEof)
    && ((exists i :: 0 <= i < |l.sent| && l.sent[i].Close?) ==> r.lp.at.Removing? || r.lp.at.Gone?)
    && NoDataAfterEof(l.sent)
    && (r.lp.left.ReadError? ==> NoDataAfterClose(l.sent))
  }

  /** The bytes written are those of the data frames taken from the session. */
  predicate Receiving(l: Local, lp: Loop) {
    if lp.at.Writing? then lp.written + lp.at.chunk == Payload(l.got) && !lp.writeFailed
    else if lp.writeFailed then lp.at.Ending() && lp.written <= Payload(l.got)
    else lp.written == Payload(l.got)
  }

  predicate GotEnds(l: Local, lp: Loop) {
    && (forall i :: 0 <= i < |l.got| && (l.got[i].Close? || l.got[i].Error?) ==> lp.at.Ending() && !lp.writeFailed)
    && lp.writeClosed == lp.remoteEof == (Eof in l.got)
    && (lp.writeClosed ==> !lp.at.Writing? && !lp.writeFailed)
  }

  /** A relay that was dialed closes its socket on its way out, and not before. */
  predicate ClosesSocket(r: Relay) {
    && (r.lp.at.Closing? || r.lp.at.Removing? || r.lp.at.Gone? ==> r.lp.sockClosed || r.rd.at.NotStarted?)
    && (r.lp.sockClosed ==> r.lp.at.Closing? || r.lp.at.Removing? || r.lp.at.Gone?)
  }

  /** What ended the reading is in readResult, or the loop has acted on it: an EOF has
      been sent, or the relay is ending. */
  predicate Reports(l: Local, r: Relay) {
    && (r.rd.at.Exited? ==> !r.rd.result.NoEnd? || r.lp.localEof || r.lp.at.Ending())
    && (r.lp.localEof ==> r.lp.at.SendingEof? || r.lp.at.Ending() || Eof in l.sent)
  }

  predicate RelayInv(l: Local, r: Relay) {
    && ClosesSocket(r) && Reports(l, r)
    && ReaderFits(l, r.rd) && LoopFits(l, r) && Sending(l, r.rd) && ReaderEnds(r) && SentEnds(l, r)
    && Receiving(l, r.lp) && GotEnds(l, r.lp)
  }

  predicate TcpInv(s: Tcp) {
    Inv(s.ch) && RelayInv(s.ch.a.loc, s.a) && RelayInv(s.ch.b.loc, s.b)
  }

  // The link's goroutines.

  lemma ByLink(l: Local, l': Local, r: Relay)
    requires RelayInv(l, r) && Undisturbed(l, l')
    ensures RelayInv(l', r)
  {
  }

  // The reader goroutine.

  predicate ReaderCan(e: End, r: Relay, act: ReaderAct) {
    ReaderAtAct(e.loc, r, act) && (var call := ReaderCall(r.rd, act); call.Call? ==> CanAct(e, call.act))
  }

  function AfterReader(e: End, r: Relay, act: ReaderAct): Local
    requires ReaderCan(e, r, act)
  {
    var call := ReaderCall(r.rd, act);
    if call.Call? then Effect(e, call.act).end.loc else e.loc
  }

  lemma ReaderKeepsFit(e: End, r: Relay, act: ReaderAct)
    requires ReaderCan(e, r, act) && ReaderFits(e.loc, r.rd) && LoopFits(e.loc, r) && ReaderEnds(r)
    ensures var l', rd' := AfterReader(e, r, act), ReaderNext(e.port.wrBroken, r.rd, act);
      ReaderFits(l', rd') && LoopFits(l', r.(rd := rd')) && ReaderEnds(r.(rd := rd'))
  {
  }

  lemma ReaderKeepsSending(e: End, r: Relay, act: ReaderAct)
    requires ReaderCan(e, r, act) && ReaderFits(e.loc, r.rd) && Sending(e.loc, r.rd)
    ensures Sending(AfterReader(e, r, act), ReaderNext(e.port.wrBroken, r.rd, act))
  {
    if act.WriteData? {
      AppendPayload(e.loc.sent, [e.loc.hold.frame]);
    }
  }

  lemma ReaderKeepsSentEnds(e: End, r: Relay, act: ReaderAct)
    requires ReaderCan(e, r, act) && ReaderFits(e.loc, r.rd) && LoopFits(e.loc, r) && ReaderEnds(r) && SentEnds(e.loc, r)
    ensures SentEnds(AfterReader(e, r, act), r.(rd := ReaderNext(e.port.wrBroken, r.rd, act)))
  {
  }

  lemma ReaderKeepsReports(e: End, r: Relay, act: ReaderAct)
    requires ReaderCan(e, r, act) && ReaderFits(e.loc, r.rd) && Reports(e.loc, r)
    ensures Reports(AfterReader(e, r, act), r.(rd := ReaderNext(e.port.wrBroken, r.rd, act)))
  {
  }

  lemma ReaderKeepsGot(e: End, r: Relay, act: ReaderAct)
    requires ReaderCan(e, r, act)
    ensures AfterReader(e, r, act).got == e.loc.got
  {
  }

  // The main loop.

  predicate LoopCan(e: End, r: Relay, act: LoopAct) {
    LoopAtAct(e.loc, r, act) && (var call := LoopCall(e.loc, act); call.Call? ==> CanAct(e, call.act))
  }

  function AfterLoop(e: End, r: Relay, act: LoopAct): Local
    requires LoopCan(e, r, act)
  {
    var call := LoopCall(e.loc, act);
    if call.Call? then Effect(e, call.act).end.loc else e.loc
  }

  function RelayAfterLoop(e: End, r: Relay, act: LoopAct): Relay
    requires LoopCan(e, r, act)
  {
    Relay(LoopOnReader(r.rd, act), LoopNext(e, r, act))
  }

  lemma LoopKeepsFit(e: End, r: Relay, act: LoopAct)
    requires LoopCan(e, r, act) && ReaderFits(e.loc, r.rd) && LoopFits(e.loc, r) && ReaderEnds(r)
    ensures var l', r' := AfterLoop(e, r, act), RelayAfterLoop(e, r, act);
      ReaderFits(l', r'.rd) && LoopFits(l', r')
  {
  }

  lemma LoopKeepsClosing(e: End, r: Relay, act: LoopAct)
    requires LoopCan(e, r, act) && ClosesSocket(r) && LoopFits(e.loc, r)
    ensures ClosesSocket(RelayAfterLoop(e, r, act))
  {
  }

  lemma LoopKeepsReports(e: End, r: Relay, act: LoopAct)
    requires LoopCan(e, r, act) && LoopFits(e.loc, r) && Reports(e.loc, r)
    ensures Reports(AfterLoop(e, r, act), RelayAfterLoop(e, r, act))
  {
    if act.SendEof? && !e.port.wrBroken {
      assert AfterLoop(e, r, act).sent == e.loc.sent + [Eof];
    }
  }

  lemma LoopKeepsReaderEnds(e: End, r: Relay, act: LoopAct)
    requires LoopCan(e, r, act) && LoopFits(e.loc, r) && ReaderEnds(r)
    ensures ReaderEnds(RelayAfterLoop(e, r, act))
  {
  }

  /** The loop writes control frames only, which carry no bytes. */
  predicate Speaks(act: LoopAct) { act.DialFailed? || act.SendEof? || act.SendClose? }

  lemma SpeakingKeepsSending(e: End, r: Relay, act: LoopAct)
    requires LoopCan(e, r, act) && Speaks(act) && Sending(e.loc, r.rd)
    ensures Sending(AfterLoop(e, r, act), LoopOnReader(r.rd, act))
  {
    var sent, f := e.loc.sent, LoopCall(e.loc, act).act.control;
    assert AfterLoop(e, r, act).sent == sent || AfterLoop(e, r, act).sent == sent + [f];
    SilentFrame(sent, f);
  }

  lemma SilentFrame(q: seq<Frame>, f: Frame)
    requires !f.Data?
    ensures Payload(q + [f]) == Payload(q)
  {
    AppendPayload(q, [f]);
  }

  lemma LoopKeepsSending(e: End, r: Relay, act: LoopAct)
    requires LoopCan(e, r, act) && !Speaks(act) && LoopFits(e.loc, r) && Sending(e.loc, r.rd)
    ensures Sending(AfterLoop(e, r, act), LoopOnReader(r.rd, act))
  {
    assert AfterLoop(e, r, act).sent == e.loc.sent;
  }

  lemma SpeakingKeepsSentEnds(e: End, r: Relay, act: LoopAct)
    requires LoopCan(e, r, act) && Speaks(act) && LoopFits(e.loc, r) && ReaderEnds(r) && SentEnds(e.loc, r)
    ensures SentEnds(AfterLoop(e, r, act), RelayAfterLoop(e, r, act))
  {
  }

  lemma LoopKeepsSentEnds(e: End, r: Relay, act: LoopAct)
    requires LoopCan(e, r, act) && !Speaks(act) && LoopFits(e.loc, r) && ReaderEnds(r) && SentEnds(e.loc, r)
    ensures SentEnds(AfterLoop(e, r, act), RelayAfterLoop(e, r, act))
  {
    assert AfterLoop(e, r, act).sent == e.loc.sent;
  }

  lemma LoopKeepsReceiving(e: End, r: Relay, act: LoopAct)
    requires LoopCan(e, r, act) && LoopFits(e.loc, r) && Receiving(e.loc, r.lp)
    ensures Receiving(AfterLoop(e, r, act), LoopNext(e, r, act))
  {
    if act.TakeNext? {
      AppendPayload(e.loc.got, [e.loc.q.recv[0]]);
      assert AfterLoop(e, r, act).got == e.loc.got + [e.loc.q.recv[0]];
    } else {
      assert AfterLoop(e, r, act).got == e.loc.got;
    }
  }

  lemma LoopKeepsGotEnds(e: End, r: Relay, act: LoopAct)
    requires LoopCan(e, r, act) && Receiving(e.loc, r.lp) && GotEnds(e.loc, r.lp)
    requires act.TakeNext? && Eof in e.loc.got ==> !e.loc.q.recv[0].Data?
    ensures GotEnds(AfterLoop(e, r, act), LoopNext(e, r, act))
  {
  }

  // Both ends.

  /** No data frame waits behind an EOF that has been taken. */
  lemma NothingAfterEof(s: Tcp)
    requires TcpInv(s)
    ensures Eof in s.ch.a.loc.got && s.ch.a.loc.q.recv != [] ==> !s.ch.a.loc.q.recv[0].Data?
  {
    InvPrefix(Flip(s.ch));
    var got, recv, sent := s.ch.a.loc.got, s.ch.a.loc.q.recv, s.ch.b.loc.sent;
    assert NoDataAfterEof(sent);
    if Eof in got && recv != [] {
      var i :| 0 <= i < |got| && got[i] == Eof;
      assert sent[i] == (got + recv)[i] && sent[|got|] == (got + recv)[|got|];
    }
  }

  lemma ReaderKeeps(e: End, r: Relay, act: ReaderAct)
    requires RelayInv(e.loc, r) && ReaderCan(e, r, act)
    ensures RelayInv(AfterReader(e, r, act), r.(rd := ReaderNext(e.port.wrBroken, r.rd, act)))
  {
    ReaderKeepsFit(e, r, act);
    ReaderKeepsSending(e, r, act);
    ReaderKeepsSentEnds(e, r, act);
    ReaderKeepsReports(e, r, act);
    ReaderKeepsGot(e, r, act);
  }

  lemma LoopKeeps(e: End, r: Relay, act: LoopAct)
    requires RelayInv(e.loc, r) && LoopCan(e, r, act)
    requires act.TakeNext? && Eof in e.loc.got ==> !e.loc.q.recv[0].Data?
    ensures RelayInv(AfterLoop(e, r, act), RelayAfterLoop(e, r, act))
  {
    LoopKeepsFit(e, r, act);
    LoopKeepsClosing(e, r, act);
    LoopKeepsReports(e, r, act);
    LoopKeepsReaderEnds(e, r, act);
    if Speaks(act) {
      SpeakingKeepsSending(e, r, act);
      SpeakingKeepsSentEnds(e, r, act);
    } else {
      LoopKeepsSending(e, r, act);
      LoopKeepsSentEnds(e, r, act);
    }
    LoopKeepsReceiving(e, r, act);
    LoopKeepsGotEnds(e, r, act);
  }

  lemma KeptByReader(s: Tcp, act: ReaderAct)
    requires RelayInv(s.ch.a.loc, s.a) && CanRelay(s, OfReader(act))
    ensures RelayInv(Relayed(s, OfReader(act)).ch.a.loc, Relayed(s, OfReader(act)).a)
  {
    ReaderKeeps(s.ch.a, s.a, act);
  }

  lemma KeptByLoop(s: Tcp, act: LoopAct)
    requires RelayInv(s.ch.a.loc, s.a) && CanRelay(s, OfLoop(act))
    requires act.TakeNext? && Eof in s.ch.a.loc.got ==> !s.ch.a.loc.q.recv[0].Data?
    ensures RelayInv(Relayed(s, OfLoop(act)).ch.a.loc, Relayed(s, OfLoop(act)).a)
  {
    LoopKeeps(s.ch.a, s.a, act);
  }

  lemma RelayInvKept(s: Tcp, act: RelayAct)
    requires TcpInv(s) && CanRelay(s, act)
    ensures RelayInv(Relayed(s, act).ch.a.loc, Relayed(s, act).a)
  {
    match act
    case OfReader(ra) => KeptByReader(s, ra);
    case OfLoop(la) =>
      NothingAfterEof(s);
      KeptByLoop(s, la);
    case OfLink(la) =>
      InvNoOverrun(s.ch);
      LinkUndisturbed(s.ch, la);
      ByLink(s.ch.a.loc, Apply(s.ch, la).a.loc, s.a);
  }

  lemma RelayedKeeps(s: Tcp, act: RelayAct)
    requires TcpInv(s) && CanRelay(s, act)
    ensures TcpInv(Relayed(s, act))
  {
    RelayInvKept(s, act);
    var call := Lower(s.ch.a, s.a, act);
    if call.Call? {
      ApplyKeeps(s.ch, call.act);
    }
  }

  lemma TcpInitInv(s: Tcp)
    requires TcpInit(s)
    ensures TcpInv(s)
  {
    InitInv(s.ch);
  }

  lemma TcpStepKeeps(s: Tcp, st: RelayStep)
    requires TcpInv(s) && CanDo(s, st)
    ensures TcpInv(DoRelay(s, st))
  {
    if st.side.Left? {
      RelayedKeeps(s, st.act);
    } else {
      FlipInv(s.ch);
      RelayedKeeps(Turn(s), st.act);
      FlipInv(Relayed(Turn(s), st.act).ch);
    }
  }

  lemma {:induction false} TcpRunKeeps(s: Tcp, run: seq<RelayStep>)
    requires TcpInv(s) && CanRunTcp(s, run)
    ensures TcpInv(RunTcp(s, run))
    decreases |run|
  {
    if run != [] {
      TcpStepKeeps(s, run[0]);
      TcpRunKeeps(DoRelay(s, run[0]), run[1..]);
    }
  }

  lemma TcpReached(s: Tcp, run: seq<RelayStep>)
    requires TcpInit(s) && CanRunTcp(s, run)
    ensures TcpInv(RunTcp(s, run))
  {
    TcpInitInv(s);
    TcpRunKeeps(s, run);
  }

  // The theorems. Every one is about every run from every initial state, with
  // link breaks, read and write errors, idle expiry and cancellation anywhere.

  /** Two TCP relays never overrun each other's receive queue: dispatch always
      has room, for at most a window of data frames and at most two control
      frames. */
  lemma TcpNeverOverruns(s: Tcp, run: seq<RelayStep>)
    requires TcpInit(s) && CanRunTcp(s, run)
    ensures var t := RunTcp(s, run);
      && !Overrun(t.ch) && !Overrun(Flip(t.ch))
      && DataCount(t.ch.a.loc.q.recv) <= SEND_WINDOW && ControlCount(t.ch.a.loc.q.recv) <= 2
  {
    TcpReached(s, run);
    var t := RunTcp(s, run);
    InvNoOverrun(t.ch);
    FlipInv(t.ch);
    InvNoOverrun(Flip(t.ch));
  }

  lemma {:induction false} PayloadPrefix(x: seq<Frame>, y: seq<Frame>)
    requires x <= y
    ensures Payload(x) <= Payload(y)
  {
    assert y == x + y[|x|..];
    AppendPayload(x, y[|x|..]);
  }

  /** Prefix safety: what one socket has been given is a prefix of what the other
      has delivered, at every moment and under every fault. */
  lemma PrefixSafety(s: Tcp, run: seq<RelayStep>)
    requires TcpInit(s) && CanRunTcp(s, run)
    ensures var t := RunTcp(s, run);
      t.b.lp.written <= t.a.rd.read && t.a.lp.written <= t.b.rd.read
  {
    TcpReached(s, run);
    var t := RunTcp(s, run);
    InvWritten(t);
    FlipInv(t.ch);
    InvWritten(Turn(t));
  }

  lemma InvWritten(t: Tcp)
    requires TcpInv(t)
    ensures t.b.lp.written <= Payload(t.ch.b.loc.got) <= Payload(t.ch.a.loc.sent) <= t.a.rd.read
  {
    InvPrefix(t.ch);
    PayloadPrefix(t.ch.b.loc.got, t.ch.a.loc.sent);
  }

  /** The socket is half-closed only after every byte: the other side has read its
      whole input up to EOF, and all of it has been written here. */
  lemma HalfCloseAfterAll(s: Tcp, run: seq<RelayStep>)
    requires TcpInit(s) && CanRunTcp(s, run)
    ensures var t := RunTcp(s, run);
      t.b.lp.writeClosed ==> t.a.rd.unread == [] && t.b.lp.written == t.a.rd.read
  {
    TcpReached(s, run);
    if RunTcp(s, run).b.lp.writeClosed {
      InvHalfClose(RunTcp(s, run));
    }
  }

  lemma InvHalfClose(t: Tcp)
    requires TcpInv(t) && t.b.lp.writeClosed
    ensures t.a.rd.unread == [] && t.b.lp.written == t.a.rd.read && t.a.lp.localEof
  {
    InvPrefix(t.ch);
    var got, sent := t.ch.b.loc.got, t.ch.a.loc.sent;
    var i :| 0 <= i < |got| && got[i] == Eof;
    assert sent[i] == Eof;
    SamePayload(got, sent);
  }

  /** A backend that cannot be dialed is reported to the peer. */
  lemma FailedDialIsTold(s: Tcp)
    requires CanRelay(s, OfLoop(DialFailed)) && !s.ch.a.port.wrBroken
    ensures var t := Relayed(s, OfLoop(DialFailed));
      t.ch.ab == s.ch.ab + [Frame.Error("backend dial failed")] && t.a.lp.at.Ending()
  {
  }

  /** Nobody forgets the socket: in every run, under every fault, a relay that has
      returned has closed it, unless it never got one. */
  lemma ReturnedRelayClosed(s: Tcp, run: seq<RelayStep>)
    requires TcpInit(s) && CanRunTcp(s, run)
    ensures var t := RunTcp(s, run);
      && (t.a.lp.at.Gone? && !t.a.rd.at.NotStarted? ==> t.a.lp.sockClosed)
      && (t.b.lp.at.Gone? && !t.b.rd.at.NotStarted? ==> t.b.lp.sockClosed)
  {
    TcpReached(s, run);
  }

  /** Whatever ends the session at the peer ends the relay here. */
  lemma PeerEndIsHeard(s: Tcp, run: seq<RelayStep>)
    requires TcpInit(s) && CanRunTcp(s, run)
    ensures var t := RunTcp(s, run);
      forall f :: f in t.ch.a.loc.got && (f.Close? || f.Error?) ==> t.a.lp.at.Ending()
  {
    TcpReached(s, run);
  }

  /** Nor is the end of the input here lost: once the reader has exited, its result is
      still to be taken, or the EOF has been sent or is being sent, or the relay ends. */
  lemma EndOfInputIsTold(s: Tcp, run: seq<RelayStep>)
    requires TcpInit(s) && CanRunTcp(s, run)
    ensures var t := RunTcp(s, run);
      t.a.rd.at.Exited? && !t.a.lp.at.Ending() ==>
        !t.a.rd.result.NoEnd? || t.a.lp.at.SendingEof? || Eof in t.ch.a.loc.sent
  {
    TcpReached(s, run);
  }

  lemma {:induction false} TcpAppend(s: Tcp, x: seq<RelayStep>, st: RelayStep)
    requires CanRunTcp(s, x) && CanDo(RunTcp(s, x), st)
    ensures CanRunTcp(s, x + [st]) && RunTcp(s, x + [st]) == DoRelay(RunTcp(s, x), st)
    decreases |x|
  {
    if x == [] {
      assert [] + [st] == [st] && [st][1..] == [];
    } else {
      assert (x + [st])[0] == x[0] && (x + [st])[1..] == x[1..] + [st];
      TcpAppend(DoRelay(s, x[0]), x[1..], st);
    }
  }

  /** The way out of a relay. */
  const WAY_OUT := [OfLoop(Quit), OfLoop(CloseSocket), OfLoop(SendClose), OfLoop(Remove)]

  function Own(acts: seq<RelayAct>): seq<RelayStep> {
    if acts == [] then [] else Own(acts[..|acts| - 1]) + [RelayStep(Left, acts[|acts| - 1])]
  }

  /** A relay that is told to end, by its context or by its idle timer, does: whatever
      the peer and the link do, its own next four acts are possible, and bring it to
      its return with the socket closed and the session over, and with the peer told
      if the connection takes writes. */
  lemma QuitTearsDown(s: Tcp)
    requires TcpInv(s) && s.a.lp.at.Selecting?
    ensures CanRunTcp(s, Own(WAY_OUT))
    ensures var t := RunTcp(s, Own(WAY_OUT));
      && t.a.lp.at.Gone? && t.a.lp.sockClosed && Over(t.ch.a.loc.life)
      && (!s.ch.a.port.wrBroken ==> t.ch.ab == s.ch.ab + [Close(0, [])])
  {
    TearsDown(s);
  }

  /** The session is there to be closed. */
  predicate Opened(l: Local) { Usable(l) && !l.life.Refused? && !l.life.Absent? }

  lemma TearsDown(s: Tcp)
    requires s.a.lp.at.Selecting? && Opened(s.ch.a.loc)
    ensures CanRunTcp(s, Own(WAY_OUT))
    ensures var t := RunTcp(s, Own(WAY_OUT));
      && t.a.lp.at.Gone? && t.a.lp.sockClosed && Over(t.ch.a.loc.life)
      && (!s.ch.a.port.wrBroken ==> t.ch.ab == s.ch.ab + [Close(0, [])])
  {
    Leaves(s);
    Announces(s);
    assert WAY_OUT[..3] + [OfLoop(Remove)] == WAY_OUT;
    assert Own(WAY_OUT) == Own(WAY_OUT[..3]) + [RelayStep(Left, OfLoop(Remove))];
    Removes(RunTcp(s, Own(WAY_OUT[..3])));
    TcpAppend(s, Own(WAY_OUT[..3]), RelayStep(Left, OfLoop(Remove)));
  }

  lemma Removes(s: Tcp)
    requires s.a.lp.at.Removing? && Opened(s.ch.a.loc)
    ensures CanDo(s, RelayStep(Left, OfLoop(Remove)))
    ensures var t := DoRelay(s, RelayStep(Left, OfLoop(Remove)));
      t.a.lp == s.a.lp.(at := Gone) && Over(t.ch.a.loc.life) && t.ch.ab == s.ch.ab
  {
  }

  lemma Leaves(s: Tcp)
    requires s.a.lp.at.Selecting?
    ensures CanRunTcp(s, Own(WAY_OUT[..2]))
    ensures RunTcp(s, Own(WAY_OUT[..2])) == s.(a := s.a.(lp := s.a.lp.(at := Closing, sockClosed := true)))
  {
    assert WAY_OUT[..0] == [] && WAY_OUT[..1][..0] == [] && WAY_OUT[..2][..1] == WAY_OUT[..1];
    TcpAppend(s, [], RelayStep(Left, OfLoop(Quit)));
    assert [] + [RelayStep(Left, OfLoop(Quit))] == Own(WAY_OUT[..1]);
    TcpAppend(s, Own(WAY_OUT[..1]), RelayStep(Left, OfLoop(CloseSocket)));
  }

  lemma Announces(s: Tcp)
    requires s.a.lp.at.Selecting? && Opened(s.ch.a.loc)
    requires CanRunTcp(s, Own(WAY_OUT[..2]))
    requires RunTcp(s, Own(WAY_OUT[..2])) == s.(a := s.a.(lp := s.a.lp.(at := Closing, sockClosed := true)))
    ensures CanRunTcp(s, Own(WAY_OUT[..3]))
    ensures var t := RunTcp(s, Own(WAY_OUT[..3]));
      && t.a.lp.at.Removing? && t.a.lp.sockClosed
      && Opened(t.ch.a.loc) && t.ch.a.loc.life == s.ch.a.loc.life
      && t.ch.ab == (if s.ch.a.port.wrBroken then s.ch.ab else s.ch.ab + [Close(0, [])])
  {
    assert WAY_OUT[..3][..2] == WAY_OUT[..2];
    TcpAppend(s, Own(WAY_OUT[..2]), RelayStep(Left, OfLoop(SendClose)));
  }

  // What the socket sees.

  predicate Reads(st: RelayStep) { st.side.Left? && st.act.OfReader? && st.act.ra.ReadSocket? }

  /** The reader has been given the end of its input. */
  predicate PastEnd(r: Relay) {
    !r.lp.at.Idle? && (r.rd.at.Exited? || ((r.rd.at.Want? || r.rd.at.Have?) && !r.rd.at.next.NoEnd?))
  }

  lemma NextPastEnd(e: End, r: Relay, act: RelayAct)
    requires PastEnd(r) && AtAct(e, r, act) && (act == OfLoop(TakeNext) ==> e.loc.q.recv != [])
    ensures PastEnd(Next(e, r, act)) && !(act.OfReader? && act.ra.ReadSocket?)
  {
  }

  lemma StaysPastEnd(s: Tcp, st: RelayStep)
    requires PastEnd(s.a) && CanDo(s, st)
    ensures PastEnd(DoRelay(s, st).a) && !Reads(st)
  {
    if st.side.Left? {
      NextPastEnd(s.ch.a, s.a, st.act);
      assert Relayed(s, st.act).a == Next(s.ch.a, s.a, st.act);
    } else {
      assert Relayed(Turn(s), st.act).b == s.a;
    }
  }

  /** After a read that reported an EOF or an error, with bytes or without, the socket
      is never read again. */
  lemma {:induction false} NothingReadAfterEnd(s: Tcp, run: seq<RelayStep>)
    requires PastEnd(s.a) && CanRunTcp(s, run)
    ensures PastEnd(RunTcp(s, run).a)
    ensures forall i :: 0 <= i < |run| ==> !Reads(run[i])
    decreases |run|
  {
    if run != [] {
      StaysPastEnd(s, run[0]);
      NothingReadAfterEnd(DoRelay(s, run[0]), run[1..]);
    }
  }

  /** How many bytes the socket has taken in a step, and in a run. */
  function Took(st: RelayStep): nat {
    if st.side.Left? && st.act.OfLoop? && st.act.la.WriteSocket? then st.act.la.n else 0
  }

  function TookIn(run: seq<RelayStep>): nat
    decreases |run|
  {
    if run == [] then 0 else Took(run[0]) + TookIn(run[1..])
  }

  lemma TookNext(e: End, r: Relay, act: RelayAct)
    requires AtAct(e, r, act) && (act == OfLoop(TakeNext) ==> e.loc.q.recv != [])
    ensures |Next(e, r, act).lp.written| == |r.lp.written| + Took(RelayStep(Left, act))
  {
  }

  lemma TookOne(s: Tcp, st: RelayStep)
    requires CanDo(s, st)
    ensures |DoRelay(s, st).a.lp.written| == |s.a.lp.written| + Took(st)
  {
    if st.side.Left? {
      TookNext(s.ch.a, s.a, st.act);
      assert Relayed(s, st.act).a == Next(s.ch.a, s.a, st.act);
    } else {
      assert Relayed(Turn(s), st.act).b == s.a;
    }
  }

  /** Every byte the socket takes counts as written, those of a write that fails half
      way included, and no other. */
  lemma {:induction false} WrittenIsTaken(s: Tcp, run: seq<RelayStep>)
    requires CanRunTcp(s, run)
    ensures |RunTcp(s, run).a.lp.written| == |s.a.lp.written| + TookIn(run)
    decreases |run|
  {
    if run != [] {
      TookOne(s, run[0]);
      WrittenIsTaken(DoRelay(s, run[0]), run[1..]);
    }
  }

  predicate TookClose(l: Local) { exists i :: 0 <= i < |l.got| && l.got[i].Close? }

  /** A close that follows a read error never overtakes data: whoever takes it has
      already written everything that was read before the error. */
  lemma CloseAfterReadErrorIsLast(s: Tcp, run: seq<RelayStep>)
    requires TcpInit(s) && CanRunTcp(s, run)
    requires RunTcp(s, run).a.lp.left.ReadError? && TookClose(RunTcp(s, run).ch.b.loc)
    ensures RunTcp(s, run).b.lp.written == RunTcp(s, run).a.rd.read
  {
    TcpReached(s, run);
    InvCloseIsLast(RunTcp(s, run));
  }

  lemma InvCloseIsLast(t: Tcp)
    requires TcpInv(t) && t.a.lp.left.ReadError? && TookClose(t.ch.b.loc)
    ensures t.b.lp.written == t.a.rd.read
  {
    var got, sent := t.ch.b.loc.got, t.ch.a.loc.sent;
    InvPrefix(t.ch);
    var i :| 0 <= i < |got| && got[i].Close?;
    assert sent[i] == got[i];
    assert NoDataAfterClose(sent);
    SamePayload(got, sent);
  }

  /** Beyond a prefix that no data follows, there are no bytes. */
  lemma SamePayload(got: seq<Frame>, sent: seq<Frame>)
    requires got <= sent
    requires forall j :: |got| <= j < |sent| ==> !sent[j].Data?
    ensures Payload(got) == Payload(sent)
  {
    var rest := sent[|got|..];
    assert sent == got + rest;
    AppendPayload(got, rest);
    NoDataNoPayload(rest);
  }
}
