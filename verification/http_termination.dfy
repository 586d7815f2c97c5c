/** Total correctness of a streamed response whose connection holds and whose client
    stays, with a backend that delivers the body or fails in it. */
module HttpTermination {
  import opened Frames
  import opened Channel
  import opened ChannelInvariants
  import opened FlowControl
  import opened ChannelProgress
  import opened HttpStream
  import opened HttpStreamSafety

  /** No failure of the connection or the client, who stays; the claim timer does not
      fire before the session is claimed. The backend may fail in its body. */
  predicate FaultFree(s: Http, st: HttpStep) {
    match st
    case OfPump(_) => true
    case OfServe(sa) =>
      && !sa.ClientLeaves? && (sa.WriteClient? ==> sa.ok)
      && (sa.TimerFires? ==> !s.serve.at.Free())
    case OfLink(_, act) => Calmly(act)
  }

  predicate PastEof(p: Pump) { p.at.Closing? || p.at.Removing? || p.at.Finished? }

  /** One of the frames reports an error. */
  predicate Failed(q: seq<Frame>) { exists i :: 0 <= i < |q| && q[i].Error? }

  /** A close follows an EOF, and no data follow an error. */
  predicate CalmBody(q: seq<Frame>) {
    && (forall i :: 0 <= i < |q| && q[i].Close? ==> Eof in q[..i])
    && (forall i, j :: 0 <= i < j < |q| && q[i].Error? ==> !q[j].Data?)
  }

  predicate CalmPump(l: Local, p: Pump) {
    && !p.dropped
    && (PastEof(p) ==> !p.ended.NoEnd?)
    && (PastEof(p) && p.ended.EndOfBody? <==> Eof in l.sent)
    && (PastEof(p) && p.ended.BodyError? <==> Failed(l.sent))
  }

  predicate CalmServe(l: Local, v: Serve) {
    && (v.timer.Armed? || v.timer.StoodDown?)
    && !v.cause.ClientGone? && !v.cause.ClientFailed?
    && (v.cause.Aborted? <==> Failed(l.got))
    && !l.life.Refused?
  }

  predicate CalmPort(p: Port) { !p.wrBroken && !p.rdStopped }

  predicate Calm(s: Http) {
    && HttpInv(s) && s.ch.a.loc.opener
    && CalmPort(s.ch.a.port) && CalmPort(s.ch.b.port)
    && CalmPump(s.ch.a.loc, s.pump) && CalmBody(s.ch.a.loc.sent)
    && CalmServe(s.ch.b.loc, s.serve)
  }

  // Every step keeps the calm.

  lemma CalmByPump(e: End, p: Pump, act: PumpAct)
    requires PumpCan(e, p, act) && PumpFits(e, p) && PumpOwns(e, p) && PumpEnds(e.loc, p)
    requires CalmPort(e.port) && CalmPump(e.loc, p)
    ensures var e', p' := AfterPump(e, p, act), PumpNext(e.port.wrBroken, p, act);
      e'.port == e.port && CalmPump(e'.loc, p')
  {
    var q, q' := e.loc.sent, AfterPump(e, p, act).loc.sent;
    if q' != q {
      assert q'[..|q|] == q;
      assert forall i :: 0 <= i < |q| ==> q'[i] == q[i];
      assert q'[|q|] in q';
    }
  }

  lemma CalmBodyByPump(e: End, p: Pump, act: PumpAct)
    requires PumpCan(e, p, act) && CalmPort(e.port) && PumpEnds(e.loc, p) && CalmPump(e.loc, p) && CalmBody(e.loc.sent) && PumpFits(e, p)
    ensures CalmBody(AfterPump(e, p, act).loc.sent)
  {
    var q, q' := e.loc.sent, AfterPump(e, p, act).loc.sent;
    if q' != q {
      assert forall i :: 0 <= i < |q| ==> q'[..i] == q[..i];
      assert q'[..|q|] == q;
    }
  }

  predicate FaultFreeServe(v: Serve, act: ServeAct) {
    !act.ClientLeaves? && (act.WriteClient? ==> act.ok) && (act.TimerFires? ==> !v.at.Free())
  }

  lemma CalmByServe(e: End, v: Serve, act: ServeAct)
    requires ServeCan(e, v, act) && FaultFreeServe(v, act) && ServeFits(e.loc, v) && EdgeOwns(e, v)
    requires CalmPort(e.port) && CalmServe(e.loc, v)
    requires act.TakeNext? ==> !e.loc.q.recv[0].Close?
    ensures AfterServe(e, v, act).port == e.port
    ensures CalmServe(AfterServe(e, v, act).loc, ServeNext(e.loc, v, act))
  {
    var got, got' := e.loc.got, AfterServe(e, v, act).loc.got;
    if got' != got {
      assert got'[..|got|] == got && got'[|got|] == e.loc.q.recv[0];
      assert forall i :: 0 <= i < |got| ==> got'[i] == got[i];
    }
  }

  /** A handler that is still serving finds no close: an EOF or an error comes first. */
  lemma NoCloseYet(s: Http)
    requires Calm(s) && s.serve.at.Selecting? && s.ch.b.loc.q.recv != []
    ensures !s.ch.b.loc.q.recv[0].Close?
  {
    InvPrefix(s.ch);
    var got, recv, sent := s.ch.b.loc.got, s.ch.b.loc.q.recv, s.ch.a.loc.sent;
    assert (got + recv)[|got|] == recv[0] == sent[|got|];
    assert got == sent[..|got|];
  }

  /** Without faults the link only registers sessions and marks them done. */
  lemma LinkCalm(s: Channel, act: Act)
    requires Framed(s) && !Overrun(s) && LinkMay(s.a, act) && Enabled(s, act) && Calmly(act)
    requires CalmPort(s.a.port) && !s.a.loc.life.Refused? && (!s.a.loc.opener || s.a.loc.announced || s.ba == [])
    ensures var e := Apply(s, act).a;
      && CalmPort(e.port) && e.loc.sent == s.a.loc.sent && e.loc.got == s.a.loc.got && !e.loc.life.Refused?
  {
  }

  lemma PumpEndsIn(s: Http, act: PumpAct)
    requires CanHttp(s, OfPump(act))
    ensures var t := DoHttp(s, OfPump(act));
      && t.ch.a == AfterPump(s.ch.a, s.pump, act) && t.ch.b == s.ch.b
      && t.pump == PumpNext(s.ch.a.port.wrBroken, s.pump, act) && t.serve == s.serve
  {
  }

  lemma CalmKeptByPump(s: Http, act: PumpAct)
    requires Calm(s) && CanHttp(s, OfPump(act))
    ensures Calm(DoHttp(s, OfPump(act)))
  {
    HttpStepKeeps(s, OfPump(act));
    CalmByPump(s.ch.a, s.pump, act);
    CalmBodyByPump(s.ch.a, s.pump, act);
    PumpEndsIn(s, act);
    StillCalm(s, DoHttp(s, OfPump(act)));
  }

  lemma StillCalm(s: Http, t: Http)
    requires Calm(s) && HttpInv(t) && t.ch.a.loc.opener && t.ch.b == s.ch.b && t.serve == s.serve
    requires t.ch.a.port == s.ch.a.port && CalmPump(t.ch.a.loc, t.pump) && CalmBody(t.ch.a.loc.sent)
    ensures Calm(t)
  {
  }

  lemma CalmKeptByServe(s: Http, act: ServeAct)
    requires Calm(s) && CanHttp(s, OfServe(act)) && FaultFreeServe(s.serve, act)
    ensures Calm(DoHttp(s, OfServe(act)))
  {
    if act.TakeNext? {
      NoCloseYet(s);
    }
    HttpStepKeeps(s, OfServe(act));
    ServeCalm(s, act);
    StaysCalm(s, DoHttp(s, OfServe(act)));
  }

  lemma StaysCalm(s: Http, t: Http)
    requires Calm(s) && HttpInv(t) && t.ch.a == s.ch.a && t.pump == s.pump
    requires t.ch.b.port == s.ch.b.port && CalmServe(t.ch.b.loc, t.serve)
    ensures Calm(t)
  {
  }

  lemma ServeCalm(s: Http, act: ServeAct)
    requires CanHttp(s, OfServe(act)) && FaultFreeServe(s.serve, act)
    requires CalmPort(s.ch.b.port) && CalmServe(s.ch.b.loc, s.serve) && ServeFits(s.ch.b.loc, s.serve) && EdgeOwns(s.ch.b, s.serve)
    requires act.TakeNext? ==> !s.ch.b.loc.q.recv[0].Close?
    ensures var t := DoHttp(s, OfServe(act));
      && t.ch.a == s.ch.a && t.pump == s.pump
      && t.ch.b.port == s.ch.b.port && CalmServe(t.ch.b.loc, t.serve)
  {
    ServeEnds(s, act);
    CalmByServe(s.ch.b, s.serve, act);
  }

  lemma CalmKeptByConnectorLink(s: Http, act: Act)
    requires Calm(s) && CanHttp(s, OfLink(Left, act)) && Calmly(act)
    ensures Calm(DoHttp(s, OfLink(Left, act)))
  {
    HttpStepKeeps(s, OfLink(Left, act));
    InvNoOverrun(s.ch);
    assert Opening(s.ch) && Opening(Flip(s.ch));
    LinkCalm(s.ch, act);
  }

  lemma CalmKeptByEdgeLink(s: Http, act: Act)
    requires Calm(s) && CanHttp(s, OfLink(Right, act)) && Calmly(act)
    ensures Calm(DoHttp(s, OfLink(Right, act)))
  {
    HttpStepKeeps(s, OfLink(Right, act));
    FlipInv(s.ch);
    InvNoOverrun(Flip(s.ch));
    InvOpener(s);
    LinkCalm(Flip(s.ch), act);
  }

  lemma CalmStep(s: Http, st: HttpStep)
    requires Calm(s) && CanHttp(s, st) && FaultFree(s, st)
    ensures Calm(DoHttp(s, st))
  {
    match st
    case OfPump(pa) => CalmKeptByPump(s, pa);
    case OfServe(sa) => CalmKeptByServe(s, sa);
    case OfLink(side, act) =>
      if side.Left? {
        CalmKeptByConnectorLink(s, act);
      } else {
        CalmKeptByEdgeLink(s, act);
      }
  }

  // Every step makes progress.

  function PumpWork(p: Pump): nat {
    10 * |p.unread|
    + (match p.at
       case Waiting => 11
       case Reading => 10
       case Want(_, _) => 19
       case Have(_, _) => 18
       case SendingEof => 9
       case Closing => 5
       case Failing => 5
       case Removing => 1
       case Finished => 0)
  }

  function ServeWork(v: Serve): nat {
    (match v.at
     case Unclaimed => 8
     case Found => 7
     case Selecting => 6
     case Writing(_) => 10
     case Acking => 9
     case ClosingSession => 5
     case RemovingSession => 1
     case Gone => 0)
    + (if v.timer.Armed? then 1 else 0)
  }

  /** An upper bound on the steps left. */
  function Work(s: Http): nat {
    ChannelWork(s.ch) + PumpWork(s.pump) + ServeWork(s.serve)
  }

  predicate PumpWrites(act: PumpAct) { act.WriteData? || act.SendEof? || act.SendClose? || act.SendFailure? }

  lemma PumpWorks(s: Http, act: PumpAct)
    requires CanHttp(s, OfPump(act)) && !PumpWrites(act)
    requires CalmPort(s.ch.a.port) && PumpOwns(s.ch.a, s.pump)
    ensures Work(DoHttp(s, OfPump(act))) < Work(s)
  {
  }

  lemma PumpDataWorks(s: Http)
    requires CanHttp(s, OfPump(WriteData)) && CalmPort(s.ch.a.port) && PumpFits(s.ch.a, s.pump)
    ensures Work(DoHttp(s, OfPump(WriteData))) < Work(s)
  {
    PushSums(s.ch.ab, Out(s.ch, WriteHeld));
  }

  lemma PumpControlWorks(s: Http, act: PumpAct)
    requires CanHttp(s, OfPump(act)) && PumpWrites(act) && !act.WriteData? && CalmPort(s.ch.a.port)
    ensures Work(DoHttp(s, OfPump(act))) < Work(s)
  {
    PushSums(s.ch.ab, Out(s.ch, PumpCall(s.ch.a.loc, s.pump, act).act));
  }

  predicate ServeWrites(act: ServeAct) { act.Acknowledge? || act.DeferClose? }

  lemma ServeWorks(s: Http, act: ServeAct)
    requires CanHttp(s, OfServe(act)) && FaultFreeServe(s.serve, act) && !ServeWrites(act)
    requires CalmPort(s.ch.b.port) && CalmServe(s.ch.b.loc, s.serve) && ServeFits(s.ch.b.loc, s.serve) && EdgeOwns(s.ch.b, s.serve)
    ensures Work(DoHttp(s, OfServe(act))) < Work(s)
  {
  }

  lemma ServeWriteWorks(s: Http, act: ServeAct)
    requires CanHttp(s, OfServe(act)) && ServeWrites(act) && CalmPort(s.ch.b.port)
    ensures Work(DoHttp(s, OfServe(act))) < Work(s)
  {
    PushSums(s.ch.ba, Out(Flip(s.ch), ServeCall(s.ch.b.loc, act).act));
  }

  lemma StepWorks(s: Http, st: HttpStep)
    requires Calm(s) && CanHttp(s, st) && FaultFree(s, st)
    ensures Work(DoHttp(s, st)) < Work(s)
  {
    match st
    case OfPump(pa) =>
      if pa.WriteData? {
        PumpDataWorks(s);
      } else if PumpWrites(pa) {
        PumpControlWorks(s, pa);
      } else {
        PumpWorks(s, pa);
      }
    case OfServe(sa) =>
      if ServeWrites(sa) {
        ServeWriteWorks(s, sa);
      } else {
        ServeWorks(s, sa);
      }
    case OfLink(side, act) =>
      FlipInv(s.ch);
      if side.Left? {
        InvNoOverrun(s.ch);
        LinkWorks(s.ch, act);
      } else {
        InvNoOverrun(Flip(s.ch));
        LinkWorks(Flip(s.ch), act);
      }
  }

  // No state but the final one is stuck.

  predicate AllGone(s: Http) {
    && s.pump.at.Finished? && s.serve.at.Gone?
    && s.ch.a.loc.life.Done? && s.ch.b.loc.life.Done?
    && s.ch.ab == s.ch.ba == []
  }

  predicate PumpWaits(s: Http) {
    || s.pump.at.Finished?
    || (s.pump.at.Waiting? && !Usable(s.ch.a.loc))
    || (s.pump.at.Want? && s.ch.a.loc.q.credit == 0)
  }

  predicate ServeWaits(s: Http) {
    || s.serve.at.Gone?
    || (s.serve.at.Unclaimed? && !s.ch.b.loc.life.Live?)
    || (s.serve.at.Selecting? && s.ch.b.loc.q.recv == [])
  }

  lemma PumpMoves(s: Http) returns (act: PumpAct)
    requires !PumpWaits(s) && PumpFits(s.ch.a, s.pump) && CalmPump(s.ch.a.loc, s.pump)
    requires CalmPort(s.ch.a.port) && s.ch.a.loc.opener
    ensures CanHttp(s, OfPump(act))
  {
    match s.pump.at
    case Waiting => act := Started;
    case Reading =>
      act := if |s.pump.unread| <= BODY_BUFFER then ReadBody(|s.pump.unread|, EndOfBody) else ReadBody(BODY_BUFFER, NoEnd);
    case Want(_, _) => act := GetCredit;
    case Have(_, _) => act := WriteData;
    case SendingEof => act := SendEof;
    case Failing => act := SendFailure;
    case Closing => act := SendClose;
    case Removing => act := Remove;
  }

  lemma ServeMoves(s: Http) returns (act: ServeAct)
    requires !ServeWaits(s) && ServeFits(s.ch.b.loc, s.serve)
    ensures CanHttp(s, OfServe(act)) && FaultFreeServe(s.serve, act)
  {
    match s.serve.at
    case Unclaimed => act := FindSession;
    case Found => act := Claim;
    case Selecting => act := TakeNext;
    case Writing(chunk) => act := WriteClient(|chunk|, true);
    case Acking => act := Acknowledge;
    case ClosingSession => act := DeferClose;
    case RemovingSession => act := DeferRemove;
  }

  predicate Quiet(s: Http) {
    !LinkBusy(s.ch) && !LinkBusy(Flip(s.ch)) && PumpWaits(s) && ServeWaits(s)
  }

  /** With everything quiet, the open has been answered. */
  lemma QuietStarted(s: Http)
    requires Calm(s) && Quiet(s)
    ensures s.ch.a.loc.announced && !s.pump.at.Waiting? && !s.serve.at.Unclaimed?
    ensures s.pump.at.Finished? || s.ch.a.loc.life.Live?
    ensures s.serve.at.Gone? || s.ch.b.loc.life.Live?
  {
    assert Opening(s.ch) && Opening(Flip(s.ch));
  }

  /** Then the pump is through, for a window of frames would have to be under way. */
  lemma QuietFinished(s: Http)
    requires Calm(s) && Quiet(s)
    ensures s.pump.at.Finished?
  {
    QuietStarted(s);
    if s.serve.at.Gone? {
      EndWasSent(s);
    } else if s.pump.at.Want? {
      CreditIsUnderWay(s.ch);
    }
  }

  lemma EndWasSent(s: Http)
    requires Calm(s) && s.serve.at.Gone?
    ensures PastEof(s.pump)
  {
    InvPrefix(s.ch);
    var got := s.ch.b.loc.got;
    var i :| 0 <= i < |got| && (got[i] == Eof || got[i].Error?);
    assert s.ch.a.loc.sent[i] == got[i];
  }

  /** A handler that has taken an error has served all that was read before it. */
  lemma AbortedAtTheError(t: Http)
    requires Calm(t) && t.serve.cause.Aborted?
    ensures t.pump.ended.BodyError? && PastEof(t.pump) && t.serve.written == t.pump.read
  {
    InvPrefix(t.ch);
    var got, sent := t.ch.b.loc.got, t.ch.a.loc.sent;
    var i :| 0 <= i < |got| && got[i].Error?;
    assert sent[i] == got[i];
    var rest := sent[|got|..];
    assert sent == got + rest;
    AppendPayload(got, rest);
    NoDataNoPayload(rest);
  }

  /** And the handler has taken everything that was sent, the EOF or the error included. */
  lemma QuietGone(s: Http)
    requires Calm(s) && Quiet(s)
    ensures AllGone(s)
  {
    QuietStarted(s);
    QuietFinished(s);
    if s.serve.at.Selecting? {
      EverythingTaken(s.ch);
    }
  }

  /** Short of the final state, a fault-free step is enabled. */
  lemma Progress(s: Http) returns (st: HttpStep)
    requires Calm(s) && !AllGone(s)
    ensures CanHttp(s, st) && FaultFree(s, st)
  {
    if LinkBusy(s.ch) {
      var act := LinkMoves(s.ch);
      st := OfLink(Left, act);
    } else if LinkBusy(Flip(s.ch)) {
      var act := LinkMoves(Flip(s.ch));
      st := OfLink(Right, act);
    } else if !PumpWaits(s) {
      var act := PumpMoves(s);
      st := OfPump(act);
    } else if !ServeWaits(s) {
      var act := ServeMoves(s);
      st := OfServe(act);
    } else {
      QuietGone(s);
      assert false;
    }
  }

  // Runs.

  predicate FaultFreeRun(s: Http, run: seq<HttpStep>)
    requires CanRunHttp(s, run)
    decreases |run|
  {
    run == [] || (FaultFree(s, run[0]) && FaultFreeRun(DoHttp(s, run[0]), run[1..]))
  }

  /** What the backend has delivered and has still to deliver never changes. */
  function Body(s: Http): Bytes { s.pump.read + s.pump.unread }

  lemma BodyKept(s: Http, st: HttpStep)
    requires CanHttp(s, st)
    ensures Body(DoHttp(s, st)) == Body(s)
  {
    if st.OfPump? && st.pa.ReadBody? {
      assert s.pump.unread == s.pump.unread[..st.pa.n] + s.pump.unread[st.pa.n..];
    }
  }

  lemma {:induction false} CalmRun(s: Http, run: seq<HttpStep>)
    requires Calm(s) && CanRunHttp(s, run) && FaultFreeRun(s, run)
    ensures Calm(RunHttp(s, run)) && Body(RunHttp(s, run)) == Body(s)
    ensures |run| + Work(RunHttp(s, run)) <= Work(s)
    decreases |run|
  {
    if run != [] {
      CalmStep(s, run[0]);
      StepWorks(s, run[0]);
      BodyKept(s, run[0]);
      CalmRun(DoHttp(s, run[0]), run[1..]);
    }
  }

  ghost predicate Stuck(s: Http) {
    forall st: HttpStep :: FaultFree(s, st) ==> !CanHttp(s, st)
  }

  /** The whole body and a normal end, or what the backend delivered before it failed
      and a panic. */
  predicate EndsWith(t: Http, body: Bytes) {
    && t.serve.written == t.pump.read <= body
    && (if t.pump.ended.EndOfBody? then t.serve.cause.SawEof? && t.serve.written == body
        else t.pump.ended.BodyError? && t.serve.cause.Aborted?)
  }

  lemma StuckServed(t: Http)
    requires Calm(t) && Stuck(t)
    ensures AllGone(t) && EndsWith(t, Body(t))
  {
    if !AllGone(t) {
      var st := Progress(t);
      assert false;
    }
    if t.serve.cause.SawEof? {
      InvWhole(t);
    } else {
      AbortedAtTheError(t);
    }
  }

  lemma CalmInit(s: Http)
    requires HttpInit(s)
    ensures Calm(s) && Work(s) == 10 * |s.pump.unread| + 28 && Body(s) == s.pump.unread
  {
    InitInv(s.ch);
  }

  /** A backend that never fails has not. */
  predicate Unfailed(p: Pump) {
    !p.ended.BodyError? && (p.at.Want? || p.at.Have? ==> !p.at.next.BodyError?)
  }

  lemma UnfailedStep(s: Http, st: HttpStep)
    requires CanHttp(s, st) && Unfailed(s.pump) && !BackendFails(st)
    ensures Unfailed(DoHttp(s, st).pump)
  {
  }

  lemma {:induction false} UnfailedRun(s: Http, run: seq<HttpStep>)
    requires CanRunHttp(s, run) && Unfailed(s.pump) && BackendUp(run)
    ensures Unfailed(RunHttp(s, run).pump)
    decreases |run|
  {
    if run != [] {
      UnfailedStep(s, run[0]);
      UnfailedRun(DoHttp(s, run[0]), run[1..]);
    }
  }

  /** Total correctness. When the client stays and the connection holds, a run is no
      longer than a bound that is linear in the body, and when nothing more can happen
      the pump and the handler have returned and both sessions are done. The response
      has then ended normally with the whole body given to the client, or, if the
      backend failed, the handler has panicked with all given that was read; and it is
      whole if the backend never fails. */
  lemma StreamedTotalCorrectness(s: Http, run: seq<HttpStep>)
    requires HttpInit(s) && CanRunHttp(s, run) && FaultFreeRun(s, run)
    ensures |run| <= 10 * |s.pump.unread| + 28
    ensures var t := RunHttp(s, run);
      Stuck(t) ==> AllGone(t) && EndsWith(t, s.pump.unread) && (BackendUp(run) ==> t.serve.written == s.pump.unread)
  {
    CalmInit(s);
    CalmRun(s, run);
    if Stuck(RunHttp(s, run)) {
      StuckServed(RunHttp(s, run));
      if BackendUp(run) {
        UnfailedRun(s, run);
      }
    }
  }
}
