/** Total correctness of RelayWebSocket when nothing fails: what becomes of a session
    whose WebSockets deliver finitely many messages and may then be closed. */
module WsTermination {
  import opened Frames
  import opened Channel
  import opened ChannelInvariants
  import opened FlowControl
  import opened ChannelProgress
  import opened WsRelay
  import opened WsSafety

  /** What a WebSocket's own peer does: it sends messages, and then closes with a code,
      or (NoEnd) stays. */
  datatype Script = Script(messages: seq<Frame>, close: ReadEnd)

  predicate Plausible(x: Script) {
    && (forall i :: 0 <= i < |x.messages| ==> x.messages[i].Data?)
    && (x.close.NoEnd? || (x.close.PeerClose? && ReportedCode(x.close.code)))
  }

  // Not a fault: no cancellation, no dial error, no link break, the open accepted, and
  // reads follow the script until the relay is leaving. A WebSocket that has been
  // closed by its peer may refuse a write.

  predicate FaultFreeReader(r: Relay, x: Script, act: ReaderAct) {
    match act
    case ReadMessage(message) => |r.rd.read| < |x.messages| && message == x.messages[|r.rd.read|]
    case ReadFails(end) => r.lp.at.Ending() || (r.rd.read == x.messages && end == x.close)
    case _ => true
  }

  predicate FaultFreeLoop(r: Relay, act: LoopAct) {
    !act.DialFailed? && !act.Quit? && (act.WriteSocket? ==> act.ok || r.rd.at.Exited?)
  }

  predicate FaultFree(r: Relay, x: Script, act: RelayAct) {
    match act
    case OfReader(ra) => FaultFreeReader(r, x, ra)
    case OfLoop(la) => FaultFreeLoop(r, la)
    case OfLink(a) => Calmly(a)
  }

  // What holds of a relay in such a run.

  /** The relay ends the session by itself: its WebSocket was closed. */
  predicate Initiated(r: Relay) { r.lp.left.PeerClose? || r.lp.writeFailed }

  predicate Departing(at: LoopAt) { !at.Idle? && !at.Looping() }

  predicate CalmLife(e: End, lp: Loop) {
    && !e.port.wrBroken && !e.port.rdStopped
    && (e.loc.life.Absent? ==> lp.at.Idle? && !e.loc.announced)
    && !e.loc.life.Refused?
    && (Over(e.loc.life) <==> lp.at.Gone? || (lp.relayed && !lp.at.RemovingEarly?))
  }

  predicate CalmReader(r: Relay, x: Script) {
    && |r.rd.read| <= |x.messages| && r.rd.read == x.messages[..|r.rd.read|]
    && (r.rd.at.NotStarted? <==> r.lp.at.Idle?)
    && (!r.lp.at.Ending() ==> r.rd.result.NoEnd? || r.rd.result == x.close)
    && (r.rd.at.Exited? && !r.lp.at.Ending() ==> ReadAll(r, x))
    && (r.rd.at.Exited? && r.lp.at.Looping() ==> r.rd.result == x.close)
    && (r.lp.left.NoEnd? || r.lp.left == x.close)
    && (Initiated(r) ==> r.rd.at.Exited? && ReadAll(r, x))
  }

  predicate ReadAll(r: Relay, x: Script) {
    r.rd.read == x.messages && x.close.PeerClose? && !r.rd.dropped
  }

  predicate CalmSent(l: Local, r: Relay) {
    && (forall i :: 0 <= i < |l.sent| ==> l.sent[i].Data? || l.sent[i].Close?)
    && (Initiated(r) ==> forall i, j :: 0 <= i < j < |l.sent| && l.sent[i].Close? ==> !l.sent[j].Data?)
    && (r.lp.relayed || r.lp.at.Removing? || r.lp.at.Gone? ==> HasClose(l.sent))
  }

  predicate CalmGot(l: Local, r: Relay) {
    && (Departing(r.lp.at) ==> Initiated(r) || r.lp.at.RelayingCode? || HasClose(l.got))
    && (forall i :: 0 <= i < |l.got| && l.got[i].Close? ==>
          && i == |l.got| - 1 && Departing(r.lp.at)
          && (l.got[i].code != 0 ==> r.lp.at == TellingSocket(l.got[i]) || r.lp.told == Full(l.got[i])))
  }

  predicate Calm(e: End, r: Relay, x: Script) {
    CalmLife(e, r.lp) && CalmReader(r, x) && CalmSent(e.loc, r) && CalmGot(e.loc, r)
  }

  /** Nobody leaves without a reason: one of the two WebSockets was closed. */
  predicate Caused(s: Ws) {
    Departing(s.a.lp.at) || Departing(s.b.lp.at) ==> Initiated(s.a) || Initiated(s.b)
  }

  predicate CalmWs(s: Ws, x: Script, y: Script) {
    && WsInv(s) && Plausible(x) && Plausible(y)
    && Calm(s.ch.a, s.a, x) && Calm(s.ch.b, s.b, y) && Caused(s)
  }

  // The reader goroutine.

  lemma CalmByReader(e: End, r: Relay, x: Script, act: ReaderAct)
    requires ReaderCan(e, r, act) && FaultFreeReader(r, x, act) && RelayInv(e, r)
    requires CalmLife(e, r.lp) && CalmReader(r, x) && Plausible(x)
    ensures var r' := r.(rd := ReaderNext(e.port.wrBroken, r.rd, act));
      CalmReader(r', x) && Initiated(r') == Initiated(r)
  {
  }

  lemma CalmSentByReader(e: End, r: Relay, x: Script, act: ReaderAct)
    requires ReaderCan(e, r, act) && RelayInv(e, r) && CalmReader(r, x) && CalmSent(e.loc, r)
    ensures CalmSent(AfterReader(e, r, act), r)
  {
    var sent, sent' := e.loc.sent, AfterReader(e, r, act).sent;
    assert forall i :: 0 <= i < |sent| ==> sent'[i] == sent[i];
  }

  // The main loop.

  lemma CalmByLoop(e: End, r: Relay, x: Script, act: LoopAct)
    requires LoopCan(e, r, act) && FaultFreeLoop(r, act) && RelayInv(e, r)
    requires CalmLife(e, r.lp) && CalmReader(r, x) && Plausible(x)
    requires act.TakeNext? ==> e.loc.q.recv[0].Data? || e.loc.q.recv[0].Close?
    ensures var l', r' := AfterLoop(e, r, act), RelayAfterLoop(e, r, act);
      CalmReader(r', x) && CalmLife(e.(loc := l'), r'.lp)
  {
  }

  lemma CalmSentByLoop(e: End, r: Relay, x: Script, act: LoopAct)
    requires LoopCan(e, r, act) && FaultFreeLoop(r, act) && LoopFits(e.loc, r) && !Speaks(act)
    requires ReaderEnds(r) && SentEnds(e.loc, r.lp) && CalmReader(r, x) && CalmSent(e.loc, r)
    ensures CalmSent(AfterLoop(e, r, act), RelayAfterLoop(e, r, act))
  {
    assert AfterLoop(e, r, act).sent == e.loc.sent;
  }

  /** A close is written, as the last frame. */
  lemma CalmSentByClose(e: End, r: Relay, act: LoopAct)
    requires LoopCan(e, r, act) && (act.RelayCode? || act.SendClose?) && CalmLife(e, r.lp) && CalmSent(e.loc, r)
    ensures CalmSent(AfterLoop(e, r, act), RelayAfterLoop(e, r, act))
  {
    var sent, sent' := e.loc.sent, AfterLoop(e, r, act).sent;
    assert sent' == sent + [LoopCall(e.loc, r.lp, act).act.control];
    assert sent'[|sent|].Close?;
  }

  lemma CalmGotByLoop(e: End, r: Relay, x: Script, act: LoopAct)
    requires LoopCan(e, r, act) && FaultFreeLoop(r, act) && !act.TakeNext?
    requires LoopFits(e.loc, r) && GotEnds(e.loc, r.lp) && ReaderEnds(r)
    requires CalmLife(e, r.lp) && CalmReader(r, x) && CalmGot(e.loc, r) && Plausible(x)
    ensures CalmGot(AfterLoop(e, r, act), RelayAfterLoop(e, r, act))
  {
    assert AfterLoop(e, r, act).got == e.loc.got;
  }

  lemma CalmGotByTake(e: End, r: Relay)
    requires LoopCan(e, r, TakeNext) && LoopFits(e.loc, r) && CalmGot(e.loc, r)
    requires e.loc.q.recv[0].Data? || e.loc.q.recv[0].Close?
    ensures CalmGot(AfterLoop(e, r, TakeNext), RelayAfterLoop(e, r, TakeNext))
  {
    var got, got' := e.loc.got, AfterLoop(e, r, TakeNext).got;
    assert got' == got + [e.loc.q.recv[0]];
    assert got'[|got|] == e.loc.q.recv[0];
    assert forall i :: 0 <= i < |got| ==> got'[i] == got[i] && !got[i].Close?;
  }

  /** What waits for a relay is data and closes. */
  lemma NextIsCalm(s: Ws)
    requires Inv(s.ch) && CalmSent(s.ch.b.loc, s.b) && s.ch.a.loc.q.recv != []
    ensures var f := s.ch.a.loc.q.recv[0];
      (f.Data? || f.Close?) && (f.Close? ==> HasClose(s.ch.b.loc.sent))
  {
    InvPrefix(Flip(s.ch));
    var got, recv, sent := s.ch.a.loc.got, s.ch.a.loc.q.recv, s.ch.b.loc.sent;
    assert (got + recv)[|got|] == recv[0] == sent[|got|];
  }

  /** The loop's reason to leave, if it leaves. */
  lemma CauseByLoop(s: Ws, act: LoopAct)
    requires LoopCan(s.ch.a, s.a, act) && FaultFreeLoop(s.a, act) && Caused(s)
    requires LoopFits(s.ch.a.loc, s.a) && CalmLife(s.ch.a, s.a.lp)
    requires s.a.lp.at.Selecting? ==> s.a.rd.result.NoEnd? || s.a.rd.result.PeerClose?
    requires act.TakeNext? ==>
      s.ch.a.loc.q.recv[0].Data? || (s.ch.a.loc.q.recv[0].Close? && Departing(s.b.lp.at))
    ensures var r' := RelayAfterLoop(s.ch.a, s.a, act);
      Departing(r'.lp.at) || Departing(s.b.lp.at) ==> Initiated(r') || Initiated(s.b)
  {
  }

  // Every step keeps the calm.

  lemma LinkCalm(s: Ws, act: Act)
    requires Framed(s.ch) && !Overrun(s.ch) && CanRelay(s, OfLink(act)) && Calmly(act)
    requires CalmLife(s.ch.a, s.a.lp) && LoopFits(s.ch.a.loc, s.a)
    ensures var e := Apply(s.ch, act).a;
      CalmLife(e, s.a.lp) && e.loc.sent == s.ch.a.loc.sent && e.loc.got == s.ch.a.loc.got
  {
  }

  lemma CalmKeptByReader(s: Ws, x: Script, act: ReaderAct)
    requires RelayInv(s.ch.a, s.a) && Calm(s.ch.a, s.a, x) && Plausible(x)
    requires CanRelay(s, OfReader(act)) && FaultFreeReader(s.a, x, act)
    ensures var t := Relayed(s, OfReader(act));
      Calm(t.ch.a, t.a, x) && Initiated(t.a) == Initiated(s.a) && t.a.lp == s.a.lp
  {
    CalmByReader(s.ch.a, s.a, x, act);
    CalmSentByReader(s.ch.a, s.a, x, act);
    ReaderLeaves(s.ch.a, s.a, act);
    CalmAfterReader(s, x, act);
  }

  lemma ReaderLeaves(e: End, r: Relay, act: ReaderAct)
    requires ReaderCan(e, r, act)
    ensures var l' := AfterReader(e, r, act);
      l'.life == e.loc.life && l'.announced == e.loc.announced && l'.got == e.loc.got
  {
  }

  lemma CalmAfterReader(s: Ws, x: Script, act: ReaderAct)
    requires CanRelay(s, OfReader(act)) && Calm(s.ch.a, s.a, x)
    requires var l', r' := AfterReader(s.ch.a, s.a, act), s.a.(rd := ReaderNext(s.ch.a.port.wrBroken, s.a.rd, act));
      && CalmReader(r', x) && CalmSent(l', s.a) && Initiated(r') == Initiated(s.a)
      && l'.life == s.ch.a.loc.life && l'.announced == s.ch.a.loc.announced && l'.got == s.ch.a.loc.got
    ensures var t := Relayed(s, OfReader(act));
      Calm(t.ch.a, t.a, x) && Initiated(t.a) == Initiated(s.a) && t.a.lp == s.a.lp
  {
  }

  lemma CalmKeptByLoop(s: Ws, x: Script, act: LoopAct)
    requires RelayInv(s.ch.a, s.a) && Calm(s.ch.a, s.a, x) && Plausible(x)
    requires CanRelay(s, OfLoop(act)) && FaultFreeLoop(s.a, act)
    requires act.TakeNext? ==> s.ch.a.loc.q.recv[0].Data? || s.ch.a.loc.q.recv[0].Close?
    ensures Calm(Relayed(s, OfLoop(act)).ch.a, Relayed(s, OfLoop(act)).a, x)
  {
    CalmByLoop(s.ch.a, s.a, x, act);
    if Speaks(act) {
      CalmSentByClose(s.ch.a, s.a, act);
    } else {
      CalmSentByLoop(s.ch.a, s.a, x, act);
    }
    if act.TakeNext? {
      CalmGotByTake(s.ch.a, s.a);
    } else {
      CalmGotByLoop(s.ch.a, s.a, x, act);
    }
  }

  lemma CalmLoopAct(s: Ws, x: Script, y: Script, act: LoopAct)
    requires CalmWs(s, x, y) && CanRelay(s, OfLoop(act)) && FaultFreeLoop(s.a, act)
    ensures Calm(Relayed(s, OfLoop(act)).ch.a, Relayed(s, OfLoop(act)).a, x) && Caused(Relayed(s, OfLoop(act)))
  {
    if act.TakeNext? {
      NextIsCalm(s);
    }
    CalmKeptByLoop(s, x, act);
    CauseByLoop(s, act);
  }

  lemma CalmLinkAct(s: Ws, x: Script, y: Script, act: Act)
    requires CalmWs(s, x, y) && CanRelay(s, OfLink(act)) && Calmly(act)
    ensures Calm(Relayed(s, OfLink(act)).ch.a, s.a, x)
  {
    InvNoOverrun(s.ch);
    LinkCalm(s, act);
  }

  lemma CalmKept(s: Ws, x: Script, y: Script, act: RelayAct)
    requires CalmWs(s, x, y) && CanRelay(s, act) && FaultFree(s.a, x, act)
    ensures CalmWs(Relayed(s, act), x, y)
  {
    RelayedKeeps(s, act);
    match act
    case OfReader(ra) => CalmKeptByReader(s, x, ra);
    case OfLoop(la) => CalmLoopAct(s, x, y, la);
    case OfLink(a) => CalmLinkAct(s, x, y, a);
  }

  lemma TurnCalm(s: Ws, x: Script, y: Script)
    requires CalmWs(s, x, y)
    ensures CalmWs(Turn(s), y, x)
  {
    FlipInv(s.ch);
  }

  predicate FaultFreeStep(s: Ws, x: Script, y: Script, st: RelayStep) {
    if st.side.Left? then FaultFree(s.a, x, st.act) else FaultFree(s.b, y, st.act)
  }

  lemma CalmStep(s: Ws, x: Script, y: Script, st: RelayStep)
    requires CalmWs(s, x, y) && CanDo(s, st) && FaultFreeStep(s, x, y, st)
    ensures CalmWs(DoRelay(s, st), x, y)
  {
    if st.side.Left? {
      CalmKept(s, x, y, st.act);
    } else {
      TurnCalm(s, x, y);
      CalmKept(Turn(s), y, x, st.act);
      TurnCalm(Relayed(Turn(s), st.act), y, x);
    }
  }

  // Every step makes progress.

  function ReaderWork(rd: Reader, x: Script): int {
    10 * (|x.messages| - |rd.read|)
    + (match rd.at
       case Want(_) => 9 + 6
       case Have(_) => 8 + 6
       case Exited => 0
       case _ => 6)
    + (if rd.result.NoEnd? then 0 else 5)
  }

  function LoopWork(at: LoopAt): nat {
    match at
    case Idle => 8
    case Selecting => 7
    case Writing(_) => 7 + 4
    case Acking => 7 + 3
    case RelayingCode => 7 + 4
    case RemovingEarly => 7
    case TellingSocket(_) => 7
    case Leaving => 6
    case Closing => 5
    case Removing => 1
    case Gone => 0
  }

  /** An upper bound on the steps left. */
  function Work(s: Ws, x: Script, y: Script): int {
    ChannelWork(s.ch) + ReaderWork(s.a.rd, x) + LoopWork(s.a.lp.at) + ReaderWork(s.b.rd, y) + LoopWork(s.b.lp.at)
  }

  lemma ReaderWorks(s: Ws, x: Script, y: Script, act: ReaderAct)
    requires CanRelay(s, OfReader(act)) && FaultFreeReader(s.a, x, act) && !act.WriteData?
    requires ReaderFits(s.ch.a.loc, s.a.rd)
    ensures Work(Relayed(s, OfReader(act)), x, y) < Work(s, x, y)
  {
  }

  lemma WriteWorks(s: Ws, x: Script, y: Script)
    requires CanRelay(s, OfReader(WriteData)) && CalmLife(s.ch.a, s.a.lp) && ReaderFits(s.ch.a.loc, s.a.rd)
    ensures Work(Relayed(s, OfReader(WriteData)), x, y) < Work(s, x, y)
  {
    PushSums(s.ch.ab, s.ch.a.loc.hold);
  }

  predicate WritesFrame(act: LoopAct) { act.RelayCode? || act.Acknowledge? || act.SendClose? }

  lemma LoopWorks(s: Ws, x: Script, y: Script, act: LoopAct)
    requires CanRelay(s, OfLoop(act)) && FaultFreeLoop(s.a, act) && !WritesFrame(act) && !act.TakeNext?
    requires LoopFits(s.ch.a.loc, s.a) && ReaderFits(s.ch.a.loc, s.a.rd)
    ensures Work(Relayed(s, OfLoop(act)), x, y) < Work(s, x, y)
  {
  }

  lemma TakeWorks(s: Ws, x: Script, y: Script)
    requires CanRelay(s, OfLoop(TakeNext)) && s.ch.a.loc.q.recv[0].Queued()
    ensures Work(Relayed(s, OfLoop(TakeNext)), x, y) < Work(s, x, y)
  {
  }

  lemma RelayCodeWorks(s: Ws, x: Script, y: Script)
    requires CanRelay(s, OfLoop(RelayCode))
    ensures Work(Relayed(s, OfLoop(RelayCode)), x, y) < Work(s, x, y)
  {
    PushSums(s.ch.ab, Out(s.ch, LoopCall(s.ch.a.loc, s.a.lp, RelayCode).act));
  }

  lemma SendCloseWorks(s: Ws, x: Script, y: Script)
    requires CanRelay(s, OfLoop(SendClose))
    ensures Work(Relayed(s, OfLoop(SendClose)), x, y) < Work(s, x, y)
  {
    PushSums(s.ch.ab, Out(s.ch, SendControl(Close(0, []))));
  }

  lemma AcknowledgeWorks(s: Ws, x: Script, y: Script)
    requires CanRelay(s, OfLoop(Acknowledge))
    ensures Work(Relayed(s, OfLoop(Acknowledge)), x, y) < Work(s, x, y)
  {
    PushSums(s.ch.ab, Out(s.ch, AckData));
  }

  lemma RelayedWorks(s: Ws, x: Script, y: Script, act: RelayAct)
    requires CalmWs(s, x, y) && CanRelay(s, act) && FaultFree(s.a, x, act)
    ensures Work(Relayed(s, act), x, y) < Work(s, x, y)
  {
    match act
    case OfReader(ra) =>
      if ra.WriteData? {
        WriteWorks(s, x, y);
      } else {
        ReaderWorks(s, x, y, ra);
      }
    case OfLoop(la) =>
      if la.Acknowledge? {
        AcknowledgeWorks(s, x, y);
      } else if la.RelayCode? {
        RelayCodeWorks(s, x, y);
      } else if la.SendClose? {
        SendCloseWorks(s, x, y);
      } else if la.TakeNext? {
        TakeWorks(s, x, y);
      } else {
        LoopWorks(s, x, y, la);
      }
    case OfLink(a) =>
      InvNoOverrun(s.ch);
      LinkWorks(s.ch, a);
  }

  lemma TurnWork(s: Ws, x: Script, y: Script)
    ensures Work(Turn(s), y, x) == Work(s, x, y)
  {
  }

  lemma StepWorks(s: Ws, x: Script, y: Script, st: RelayStep)
    requires CalmWs(s, x, y) && CanDo(s, st) && FaultFreeStep(s, x, y, st)
    ensures Work(DoRelay(s, st), x, y) < Work(s, x, y)
  {
    if st.side.Left? {
      RelayedWorks(s, x, y, st.act);
    } else {
      TurnCalm(s, x, y);
      RelayedWorks(Turn(s), y, x, st.act);
      TurnWork(s, x, y);
      TurnWork(Relayed(Turn(s), st.act), y, x);
    }
  }

  // Where a run can end.

  predicate ReaderWaits(s: Ws, x: Script) {
    || s.a.rd.at.NotStarted? || s.a.rd.at.Exited?
    || (s.a.rd.at.Want? && s.ch.a.loc.q.credit == 0 && !s.ch.a.loc.life.Done?)
    || (s.a.rd.at.Reading? && s.a.rd.read == x.messages && x.close.NoEnd? && !s.a.lp.at.Ending())
  }

  lemma ReaderMoves(s: Ws, x: Script) returns (act: ReaderAct)
    requires !ReaderWaits(s, x) && RelayInv(s.ch.a, s.a) && CalmReader(s.a, x) && Plausible(x)
    ensures CanRelay(s, OfReader(act)) && FaultFreeReader(s.a, x, act)
  {
    match s.a.rd.at
    case Reading =>
      act := if |s.a.rd.read| < |x.messages| then ReadMessage(x.messages[|s.a.rd.read|])
             else ReadFails(if s.a.lp.at.Ending() then ReadError else x.close);
    case Want(_) => act := if s.ch.a.loc.q.credit > 0 then GetCredit else SeeClosed;
    case Have(_) => act := WriteData;
  }

  predicate LoopWaits(s: Ws) {
    || (s.a.lp.at.Idle? && !Usable(s.ch.a.loc))
    || (s.a.lp.at.Selecting? && s.a.rd.result.NoEnd? && s.ch.a.loc.q.recv == [])
    || s.a.lp.at.Gone?
  }

  lemma LoopMoves(s: Ws) returns (act: LoopAct)
    requires !LoopWaits(s) && LoopFits(s.ch.a.loc, s.a) && ReaderEnds(s.a)
    ensures CanRelay(s, OfLoop(act)) && FaultFreeLoop(s.a, act)
  {
    match s.a.lp.at
    case Idle => act := Dialed;
    case Selecting => act := if s.a.rd.result.NoEnd? then TakeNext else TakeResult;
    case Writing(_) => act := WriteSocket(true);
    case Acking => act := Acknowledge;
    case RelayingCode => act := RelayCode;
    case RemovingEarly => act := RemoveEarly;
    case TellingSocket(_) => act := TellSocket;
    case Leaving => act := CloseSocket;
    case Closing => act := SendClose;
    case Removing => act := Remove;
  }

  predicate Quiet(s: Ws, x: Script) {
    !LinkBusy(s.ch) && ReaderWaits(s, x) && LoopWaits(s)
  }

  lemma SideMoves(s: Ws, x: Script) returns (act: RelayAct)
    requires RelayInv(s.ch.a, s.a) && Calm(s.ch.a, s.a, x) && Plausible(x) && !Quiet(s, x)
    ensures CanRelay(s, act) && FaultFree(s.a, x, act)
  {
    if LinkBusy(s.ch) {
      var a := LinkMoves(s.ch);
      act := OfLink(a);
    } else if !ReaderWaits(s, x) {
      var ra := ReaderMoves(s, x);
      act := OfReader(ra);
    } else {
      var la := LoopMoves(s);
      act := OfLoop(la);
    }
  }

  predicate AllGone(s: Ws) {
    && s.a.lp.at.Gone? && s.b.lp.at.Gone? && s.a.rd.at.Exited? && s.b.rd.at.Exited?
    && s.a.lp.sockClosed && s.b.lp.sockClosed
    && s.ch.a.loc.life.Done? && s.ch.b.loc.life.Done?
    && s.ch.ab == s.ch.ba == []
  }

  /** Both relays wait for their WebSockets, and everything is delivered. */
  predicate Settled(s: Ws) {
    && s.a.lp.at.Selecting? && s.b.lp.at.Selecting?
    && s.b.lp.written == s.a.rd.read && s.a.lp.written == s.b.rd.read
  }

  lemma QuietStarted(s: Ws, x: Script, y: Script)
    requires CalmWs(s, x, y) && Quiet(s, x) && Quiet(Turn(s), y)
    ensures !s.a.lp.at.Idle?
  {
    assert Opening(s.ch) && Opening(Flip(s.ch));
  }

  /** A relay that has gone has sent a close, and a relay that is looping has not taken
      one: with nothing under way, they cannot be the two ends of one session. */
  lemma GoneTogether(s: Ws, x: Script, y: Script)
    requires CalmWs(s, x, y) && Quiet(s, x) && Quiet(Turn(s), y) && s.a.lp.at.Gone?
    ensures !s.b.lp.at.Selecting?
  {
    if s.b.lp.at.Selecting? {
      EverythingTaken(s.ch);
    }
  }

  /** Looping relays with nothing to do have open WebSockets with nothing to read. */
  lemma QuietReader(s: Ws, x: Script, y: Script)
    requires CalmWs(s, x, y) && Quiet(s, x) && Quiet(Turn(s), y)
    requires s.a.lp.at.Selecting? && s.b.lp.at.Selecting?
    ensures s.a.rd.at.Reading? && s.a.rd.read == x.messages && x.close.NoEnd?
    ensures s.b.lp.written == s.a.rd.read
  {
    if s.a.rd.at.Want? {
      CreditIsUnderWay(s.ch);
    } else {
      EverythingTaken(s.ch);
    }
  }

  lemma QuietEnd(s: Ws, x: Script, y: Script)
    requires CalmWs(s, x, y) && Quiet(s, x) && Quiet(Turn(s), y)
    ensures AllGone(s) || (Settled(s) && x.close.NoEnd? && y.close.NoEnd?
                           && s.a.rd.read == x.messages && s.b.rd.read == y.messages)
  {
    TurnCalm(s, x, y);
    QuietStarted(s, x, y);
    QuietStarted(Turn(s), y, x);
    if s.a.lp.at.Gone? {
      GoneTogether(s, x, y);
    } else if s.b.lp.at.Gone? {
      GoneTogether(Turn(s), y, x);
    } else {
      QuietReader(s, x, y);
      QuietReader(Turn(s), y, x);
    }
  }

  ghost predicate Stuck(s: Ws, x: Script, y: Script) {
    forall st: RelayStep :: FaultFreeStep(s, x, y, st) ==> !CanDo(s, st)
  }

  /** Nothing is stuck before it is quiet. */
  lemma Progress(s: Ws, x: Script, y: Script) returns (st: RelayStep)
    requires CalmWs(s, x, y) && !(Quiet(s, x) && Quiet(Turn(s), y))
    ensures CanDo(s, st) && FaultFreeStep(s, x, y, st)
  {
    if !Quiet(s, x) {
      var act := SideMoves(s, x);
      st := RelayStep(Left, act);
    } else {
      var act := SideMoves(Turn(s), y);
      st := RelayStep(Right, act);
    }
  }

  lemma StuckIsQuiet(s: Ws, x: Script, y: Script)
    requires CalmWs(s, x, y) && Stuck(s, x, y)
    ensures Quiet(s, x) && Quiet(Turn(s), y)
  {
    if !(Quiet(s, x) && Quiet(Turn(s), y)) {
      var st := Progress(s, x, y);
      assert false;
    }
  }

  // What has been delivered.

  lemma CloseEndsData(got: seq<Frame>, sent: seq<Frame>, i: nat)
    requires got <= sent && i < |got| && got[i].Close?
    requires forall j, k :: 0 <= j < k < |sent| && sent[j].Close? ==> !sent[k].Data?
    ensures DataOnly(got) == DataOnly(sent)
  {
    assert sent[i] == got[i];
    var rest := sent[|got|..];
    assert sent == got + rest;
    AppendData(got, rest);
    NoDataNoPayload(rest);
  }

  lemma FirstOfPrefix(got: seq<Frame>, sent: seq<Frame>, i: nat)
    requires got <= sent && i < |got| && FirstClose(got, i)
    ensures FirstClose(sent, i) && sent[i] == got[i]
  {
    assert forall j :: 0 <= j < i ==> sent[j] == got[j];
  }

  /** The close that ended a relay which did not end itself. */
  lemma TakenClose(t: Ws, x: Script, y: Script) returns (i: nat)
    requires CalmWs(t, x, y) && AllGone(t) && y.close.NoEnd?
    ensures !Initiated(t.b) && Initiated(t.a)
    ensures i < |t.ch.b.loc.got| && t.ch.b.loc.got[i].Close? && FirstClose(t.ch.b.loc.got, i)
    ensures t.ch.b.loc.got[i].code != 0 ==> t.b.lp.told == Full(t.ch.b.loc.got[i])
  {
    i :| 0 <= i < |t.ch.b.loc.got| && t.ch.b.loc.got[i].Close?;
  }

  /** If only a's WebSocket is closed, b's is given all of its messages, and then the
      code and text of the close, if and only if no write to the closed WebSocket
      failed before a's loop saw the close. */
  lemma OneClosed(t: Ws, x: Script, y: Script)
    requires CalmWs(t, x, y) && AllGone(t) && x.close.PeerClose? && y.close.NoEnd? && CutShort(t.ch.a.loc, t.a)
    ensures t.b.lp.written == x.messages
    ensures t.b.lp.told == Full(Close(x.close.code, x.close.text)) <==> !t.a.lp.writeFailed
  {
    InvPrefix(t.ch);
    var i := TakenClose(t, x, y);
    CloseEndsData(t.ch.b.loc.got, t.ch.a.loc.sent, i);
    FirstOfPrefix(t.ch.b.loc.got, t.ch.a.loc.sent, i);
    if t.b.lp.told.Full? {
      InvFidelity(t);
    }
  }

  /** A loop that a failed write ends has taken a message, and takes no read result. */
  predicate CutShort(l: Local, r: Relay) {
    r.lp.writeFailed ==> r.lp.left.NoEnd? && r.lp.at.Ending() && DataOnly(l.got) != []
  }

  lemma CutShortByLoop(e: End, r: Relay, act: LoopAct)
    requires LoopCan(e, r, act) && LoopFits(e.loc, r) && Receiving(e.loc, r.lp) && CutShort(e.loc, r)
    ensures CutShort(AfterLoop(e, r, act), RelayAfterLoop(e, r, act))
    ensures r.lp.writeFailed ==> RelayAfterLoop(e, r, act).lp.writeFailed
  {
  }

  lemma CutShortByReader(e: End, r: Relay, act: ReaderAct)
    requires ReaderCan(e, r, act) && CutShort(e.loc, r)
    ensures CutShort(AfterReader(e, r, act), r)
  {
  }

  lemma CutShortKept(s: Ws, act: RelayAct)
    requires WsInv(s) && CanRelay(s, act) && CutShort(s.ch.a.loc, s.a)
    ensures var t := Relayed(s, act);
      CutShort(t.ch.a.loc, t.a) && (s.a.lp.writeFailed ==> t.a.lp.writeFailed)
  {
    match act
    case OfReader(ra) => CutShortByReader(s.ch.a, s.a, ra);
    case OfLoop(la) => CutShortByLoop(s.ch.a, s.a, la);
    case OfLink(la) =>
      InvNoOverrun(s.ch);
      LinkUndisturbed(s.ch, la);
  }

  lemma {:induction false} CutShortRun(s: Ws, run: seq<RelayStep>)
    requires WsInv(s) && CanRunWs(s, run) && CutShort(s.ch.a.loc, s.a)
    ensures var t := RunWs(s, run);
      CutShort(t.ch.a.loc, t.a) && (s.a.lp.writeFailed ==> t.a.lp.writeFailed)
    decreases |run|
  {
    if run != [] {
      if run[0].side.Left? {
        CutShortKept(s, run[0].act);
      } else {
        OtherSide(s, run[0].act);
      }
      WsStepKeeps(s, run[0]);
      CutShortRun(DoRelay(s, run[0]), run[1..]);
    }
  }

  lemma OtherSide(s: Ws, act: RelayAct)
    requires CanDo(s, RelayStep(Right, act))
    ensures var t := DoRelay(s, RelayStep(Right, act)); t.ch.a == s.ch.a && t.a == s.a
  {
  }

  // Runs.

  predicate FaultFreeRun(s: Ws, x: Script, y: Script, run: seq<RelayStep>)
    requires CanRunWs(s, run)
    decreases |run|
  {
    run == [] || (FaultFreeStep(s, x, y, run[0]) && FaultFreeRun(DoRelay(s, run[0]), x, y, run[1..]))
  }

  lemma {:induction false} CalmRun(s: Ws, x: Script, y: Script, run: seq<RelayStep>)
    requires CalmWs(s, x, y) && CanRunWs(s, run) && FaultFreeRun(s, x, y, run)
    ensures CalmWs(RunWs(s, run), x, y)
    ensures |run| + Work(RunWs(s, run), x, y) <= Work(s, x, y)
    decreases |run|
  {
    if run != [] {
      CalmStep(s, x, y, run[0]);
      StepWorks(s, x, y, run[0]);
      CalmRun(DoRelay(s, run[0]), x, y, run[1..]);
    }
  }

  lemma CalmStart(e: End, r: Relay, x: Script)
    requires e == End(FreshLocal(e.loc.opener), OPEN_PORT) && r == NEW_RELAY
    ensures Calm(e, r, x) && RelayInv(e, r)
  {
  }

  lemma CalmInit(s: Ws, x: Script, y: Script)
    requires WsInit(s) && Plausible(x) && Plausible(y)
    ensures CalmWs(s, x, y)
  {
    InitInv(s.ch);
    CalmStart(s.ch.a, s.a, x);
    CalmStart(s.ch.b, s.b, y);
  }

  lemma InitialWork(s: Ws, x: Script, y: Script)
    requires WsInit(s)
    ensures Work(s, x, y) == 10 * |x.messages| + 10 * |y.messages| + 36
  {
  }

  lemma WorkIsNat(s: Ws, x: Script, y: Script)
    requires CalmReader(s.a, x) && CalmReader(s.b, y)
    ensures Work(s, x, y) >= 0
  {
  }

  /** Total correctness. A run without faults is no longer than a bound that is linear
      in the number of messages. When nothing more can happen: if neither WebSocket is
      closed, both relays wait for them with every message delivered; if one is, or
      both are, both relays and their readers have returned and both sessions are
      done; and if exactly one is, the other has been given all its messages, and the
      code and text it was closed with if and only if no write to the closed one failed. */
  lemma WsTotalCorrectness(s: Ws, x: Script, y: Script, run: seq<RelayStep>)
    requires WsInit(s) && Plausible(x) && Plausible(y)
    requires CanRunWs(s, run) && FaultFreeRun(s, x, y, run)
    ensures |run| <= 10 * |x.messages| + 10 * |y.messages| + 36
    ensures var t := RunWs(s, run);
      Stuck(t, x, y) ==>
        if x.close.NoEnd? && y.close.NoEnd? then t.b.lp.written == x.messages && t.a.lp.written == y.messages
        else AllGone(t)
    ensures var t := RunWs(s, run);
      Stuck(t, x, y) && x.close.PeerClose? && y.close.NoEnd? ==>
        && t.b.lp.written == x.messages
        && (t.b.lp.told == Full(Close(x.close.code, x.close.text)) <==> !t.a.lp.writeFailed)
  {
    CalmInit(s, x, y);
    InitialWork(s, x, y);
    CalmRun(s, x, y, run);
    CutShortRun(s, run);
    var t := RunWs(s, run);
    WorkIsNat(t, x, y);
    if Stuck(t, x, y) {
      StuckEnd(t, x, y);
    }
  }

  lemma StuckEnd(t: Ws, x: Script, y: Script)
    requires CalmWs(t, x, y) && Stuck(t, x, y) && CutShort(t.ch.a.loc, t.a)
    ensures if x.close.NoEnd? && y.close.NoEnd? then t.b.lp.written == x.messages && t.a.lp.written == y.messages
            else AllGone(t)
    ensures x.close.PeerClose? && y.close.NoEnd? ==>
      && t.b.lp.written == x.messages
      && (t.b.lp.told == Full(Close(x.close.code, x.close.text)) <==> !t.a.lp.writeFailed)
  {
    StuckIsQuiet(t, x, y);
    QuietEnd(t, x, y);
    if x.close.PeerClose? && y.close.NoEnd? {
      OneClosed(t, x, y);
    }
    if AllGone(t) {
      SomebodyClosed(t, x, y);
    }
  }

  lemma SomebodyClosed(t: Ws, x: Script, y: Script)
    requires CalmWs(t, x, y) && AllGone(t)
    ensures x.close.PeerClose? || y.close.PeerClose?
  {
  }
}
