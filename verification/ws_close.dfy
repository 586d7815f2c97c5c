/** When the close of one WebSocket is sure to reach the other with its code and text,
    as the documentation promises. internal/datatunnel/relay.go */
module WsClose {
  import opened Frames
  import opened Window
  import opened Channel
  import opened ChannelInvariants
  import opened FlowControl
  import opened WsRelay
  import opened WsSafety
  import opened WsTermination

  // Runs put together.

  lemma {:induction false} WsTwo(s: Ws, x: Script, y: Script, r: seq<RelayStep>, q: seq<RelayStep>)
    requires CanRunWs(s, r) && FaultFreeRun(s, x, y, r)
    requires CanRunWs(RunWs(s, r), q) && FaultFreeRun(RunWs(s, r), x, y, q)
    ensures CanRunWs(s, r + q) && RunWs(s, r + q) == RunWs(RunWs(s, r), q) && FaultFreeRun(s, x, y, r + q)
    decreases |r|
  {
    if r == [] {
      assert r + q == q;
    } else {
      assert (r + q)[0] == r[0] && (r + q)[1..] == r[1..] + q;
      WsTwo(DoRelay(s, r[0]), x, y, r[1..], q);
    }
  }

  /** A run with one more step. */
  lemma Then(s: Ws, x: Script, y: Script, r: seq<RelayStep>, st: RelayStep) returns (longer: seq<RelayStep>)
    requires CanRunWs(s, r) && FaultFreeRun(s, x, y, r)
    requires CanDo(RunWs(s, r), st) && FaultFreeStep(RunWs(s, r), x, y, st)
    ensures CanRunWs(s, longer) && FaultFreeRun(s, x, y, longer)
    ensures RunWs(s, longer) == DoRelay(RunWs(s, r), st)
  {
    longer := r + [st];
    assert [st][1..] == [];
    assert CanRunWs(DoRelay(RunWs(s, r), st), []);
    assert CanRunWs(RunWs(s, r), [st]) && RunWs(RunWs(s, r), [st]) == DoRelay(RunWs(s, r), st);
    WsTwo(s, x, y, r, [st]);
  }

  lemma OneStep(s: Ws, x: Script, y: Script, st: RelayStep)
    requires CalmWs(s, x, y) && CanDo(s, st) && FaultFreeStep(s, x, y, st)
    ensures CalmWs(DoRelay(s, st), x, y) && 0 <= Work(DoRelay(s, st), x, y) < Work(s, x, y)
  {
    CalmStep(s, x, y, st);
    StepWorks(s, x, y, st);
    WorkIsNat(DoRelay(s, st), x, y);
  }

  /** Every state without faults can be run to its end. */
  lemma {:induction false} RunToEnd(s: Ws, x: Script, y: Script) returns (run: seq<RelayStep>)
    requires CalmWs(s, x, y)
    ensures CanRunWs(s, run) && FaultFreeRun(s, x, y, run) && Stuck(RunWs(s, run), x, y)
    decreases Work(s, x, y)
  {
    if Stuck(s, x, y) {
      run := [];
    } else {
      var st :| FaultFreeStep(s, x, y, st) && CanDo(s, st);
      OneStep(s, x, y, st);
      var rest := RunToEnd(DoRelay(s, st), x, y);
      run := Before(s, x, y, st, rest);
    }
  }

  lemma Before(s: Ws, x: Script, y: Script, st: RelayStep, rest: seq<RelayStep>) returns (run: seq<RelayStep>)
    requires CanDo(s, st) && FaultFreeStep(s, x, y, st)
    requires CanRunWs(DoRelay(s, st), rest) && FaultFreeRun(DoRelay(s, st), x, y, rest)
    ensures CanRunWs(s, run) && FaultFreeRun(s, x, y, run) && RunWs(s, run) == RunWs(DoRelay(s, st), rest)
  {
    run := [st] + rest;
    assert run[1..] == rest;
  }

  // Nothing to lose: no messages for the WebSocket that is closed.

  lemma NothingToCutShort(t: Ws, x: Script, y: Script)
    requires CalmWs(t, x, y) && CutShort(t.ch.a.loc, t.a) && y.messages == []
    ensures !t.a.lp.writeFailed
  {
    FlipInv(t.ch);
    InvMessages(Turn(t));
  }

  // The losing run. First the session is opened and everything a has to say delivered,
  // with both WebSockets open and b's silent; then b's sends its first message.

  lemma {:induction false} SilentRun(s: Ws, x: Script, y: Script, run: seq<RelayStep>)
    requires CanRunWs(s, run) && FaultFreeRun(s, Script(x.messages, NoEnd), Script([], NoEnd), run)
    ensures FaultFreeRun(s, x, y, run)
    decreases |run|
  {
    if run != [] {
      SilentStep(s, x, y, run[0]);
      SilentRun(DoRelay(s, run[0]), x, y, run[1..]);
    }
  }

  lemma SilentStep(s: Ws, x: Script, y: Script, st: RelayStep)
    requires CanDo(s, st) && FaultFreeStep(s, Script(x.messages, NoEnd), Script([], NoEnd), st)
    ensures FaultFreeStep(s, x, y, st)
  {
  }

  /** Both relays wait, everything is delivered, and b's WebSocket has said nothing. */
  predicate AtRest(s: Ws, x: Script) {
    && s.a.lp.at.Selecting? && s.b.lp.at.Selecting?
    && s.a.rd.at.Reading? && s.b.rd.at.Reading? && s.a.rd.read == x.messages && s.b.rd.read == []
    && s.ch.ab == s.ch.ba == [] && s.ch.a.port == s.ch.b.port == OPEN_PORT
    && s.ch.a.loc.q.recv == [] && s.ch.b.loc.hold.Empty? && s.ch.b.loc.q.credit > 0
    && !s.ch.a.loc.busy && s.ch.a.loc.life.Live? && s.ch.b.loc.life.Live?
    && Usable(s.ch.a.loc) && Usable(s.ch.b.loc)
  }

  lemma CanRest(s: Ws, x: Script, y: Script) returns (run: seq<RelayStep>)
    requires WsInit(s) && Plausible(x) && Plausible(y)
    ensures CanRunWs(s, run) && FaultFreeRun(s, x, y, run) && AtRest(RunWs(s, run), x)
  {
    var x0, y0 := Script(x.messages, NoEnd), Script([], NoEnd);
    CalmInit(s, x0, y0);
    run := RunToEnd(s, x0, y0);
    CalmRun(s, x0, y0, run);
    SilentRun(s, x, y, run);
    Rested(RunWs(s, run), x0, y0);
  }

  lemma Rested(t: Ws, x: Script, y: Script)
    requires CalmWs(t, x, y) && Stuck(t, x, y) && x.close.NoEnd? && y == Script([], NoEnd)
    ensures AtRest(t, x)
  {
    StuckIsQuiet(t, x, y);
    QuietEnd(t, x, y);
    if AllGone(t) {
      SomebodyClosed(t, x, y);
    }
    TurnCalm(t, x, y);
    QuietReader(t, x, y);
    QuietReader(Turn(t), y, x);
    RestedPorts(t, x, y);
  }

  lemma RestedPorts(t: Ws, x: Script, y: Script)
    requires CalmWs(t, x, y) && Quiet(t, x) && Quiet(Turn(t), y)
    requires t.a.lp.at.Selecting? && t.b.lp.at.Selecting? && t.a.rd.at.Reading? && t.b.rd.at.Reading?
    ensures t.ch.ab == t.ch.ba == [] && t.ch.a.port == t.ch.b.port == OPEN_PORT
    ensures t.ch.a.loc.q.recv == [] && t.ch.b.loc.hold.Empty? && t.ch.b.loc.q.credit > 0
    ensures !t.ch.a.loc.busy && t.ch.a.loc.life.Live? && t.ch.b.loc.life.Live?
    ensures Usable(t.ch.a.loc) && Usable(t.ch.b.loc)
  {
    assert Conserved(Flip(t.ch)) && Shaped(Flip(t.ch));
  }

  /** A message is on its way to a, whose peer has still to close. */
  predicate Sent(s: Ws, x: Script) {
    && s.a.lp.at.Selecting? && s.a.rd.at.Reading? && s.a.rd.read == x.messages
    && |s.ch.ba| == 1 && s.ch.ba[0].Data? && s.ch.a.port == OPEN_PORT
    && s.ch.a.loc.q.recv == [] && !s.ch.a.loc.busy && s.ch.a.loc.life.Live? && Usable(s.ch.a.loc)
  }

  lemma SendOne(s: Ws, x: Script, y: Script) returns (run: seq<RelayStep>)
    requires AtRest(s, x) && Plausible(y) && y.messages != []
    ensures CanRunWs(s, run) && FaultFreeRun(s, x, y, run) && Sent(RunWs(s, run), x)
  {
    run := Then(s, x, y, [], RelayStep(Right, OfReader(ReadMessage(y.messages[0]))));
    run := Then(s, x, y, run, RelayStep(Right, OfReader(GetCredit)));
    run := Then(s, x, y, run, RelayStep(Right, OfReader(WriteData)));
  }

  /** a has the message in hand to write it. */
  predicate Taken(s: Ws, x: Script) {
    s.a.lp.at.Writing? && s.a.rd.at.Reading? && s.a.rd.read == x.messages
  }

  lemma TakeOne(s: Ws, x: Script, y: Script) returns (run: seq<RelayStep>)
    requires Sent(s, x)
    ensures CanRunWs(s, run) && FaultFreeRun(s, x, y, run) && Taken(RunWs(s, run), x)
  {
    run := Then(s, x, y, [], RelayStep(Left, OfLink(LookUp(Accept))));
    run := Then(s, x, y, run, RelayStep(Left, OfLink(Deliver(false))));
    run := Then(s, x, y, run, RelayStep(Left, OfLoop(TakeNext)));
  }

  lemma CloseAndFail(s: Ws, x: Script, y: Script) returns (run: seq<RelayStep>)
    requires Taken(s, x) && Plausible(x) && x.close.PeerClose?
    ensures CanRunWs(s, run) && FaultFreeRun(s, x, y, run) && RunWs(s, run).a.lp.writeFailed
  {
    run := Then(s, x, y, [], RelayStep(Left, OfReader(ReadFails(x.close))));
    run := Then(s, x, y, run, RelayStep(Left, OfLoop(WriteSocket(false))));
  }

  /** The first message b's WebSocket sends can meet a's just after it was closed. */
  lemma CanCutShort(s: Ws, x: Script, y: Script) returns (run: seq<RelayStep>)
    requires WsInit(s) && Plausible(x) && Plausible(y) && x.close.PeerClose? && y.messages != []
    ensures CanRunWs(s, run) && FaultFreeRun(s, x, y, run) && RunWs(s, run).a.lp.writeFailed
  {
    run := CanRest(s, x, y);
    var q := SendOne(RunWs(s, run), x, y);
    WsTwo(s, x, y, run, q);
    run := run + q;
    q := TakeOne(RunWs(s, run), x, y);
    WsTwo(s, x, y, run, q);
    run := run + q;
    q := CloseAndFail(RunWs(s, run), x, y);
    WsTwo(s, x, y, run, q);
    run := run + q;
  }

  // The close code.

  /** A run that has come to its end with the code and text delivered. */
  predicate Arrived(t: Ws, x: Script)
    requires x.close.PeerClose?
  {
    t.b.lp.told == Full(Close(x.close.code, x.close.text))
  }

  /** A run without faults to the end, in which the close goes out without its code
      and the other WebSocket is not told. */
  lemma CodeLost(s: Ws, x: Script, y: Script) returns (run: seq<RelayStep>)
    requires WsInit(s) && Plausible(x) && Plausible(y) && x.close.PeerClose? && y.close.NoEnd? && y.messages != []
    ensures CanRunWs(s, run) && FaultFreeRun(s, x, y, run) && Stuck(RunWs(s, run), x, y)
    ensures !Arrived(RunWs(s, run), x)
  {
    var r := CanCutShort(s, x, y);
    CalmInit(s, x, y);
    CalmRun(s, x, y, r);
    var q := RunToEnd(RunWs(s, r), x, y);
    WsTwo(s, x, y, r, q);
    run := r + q;
    StaysCutShort(s, r, q);
    WsTotalCorrectness(s, x, y, run);
  }

  lemma StaysCutShort(s: Ws, r: seq<RelayStep>, q: seq<RelayStep>)
    requires WsInit(s) && CanRunWs(s, r) && CanRunWs(RunWs(s, r), q) && RunWs(s, r).a.lp.writeFailed
    ensures RunWs(RunWs(s, r), q).a.lp.writeFailed
  {
    WsReached(s, []);
    WsReached(s, r);
    CutShortRun(s, r);
    CutShortRun(RunWs(s, r), q);
  }

  lemma ArrivesIfSilent(s: Ws, x: Script, y: Script, run: seq<RelayStep>)
    requires WsInit(s) && Plausible(x) && Plausible(y) && x.close.PeerClose? && y.close.NoEnd? && y.messages == []
    requires CanRunWs(s, run) && FaultFreeRun(s, x, y, run) && Stuck(RunWs(s, run), x, y)
    ensures Arrived(RunWs(s, run), x)
  {
    CalmInit(s, x, y);
    CalmRun(s, x, y, run);
    CutShortRun(s, run);
    NothingToCutShort(RunWs(s, run), x, y);
    WsTotalCorrectness(s, x, y, run);
  }

  ghost predicate AlwaysArrives(s: Ws, x: Script, y: Script)
    requires x.close.PeerClose?
  {
    forall run: seq<RelayStep> ::
      CanRunWs(s, run) && FaultFreeRun(s, x, y, run) && Stuck(RunWs(s, run), x, y) ==> Arrived(RunWs(s, run), x)
  }

  /** When one WebSocket is closed and the other stays, and nothing else fails, the code
      and text of the close are sure to arrive if and only if the WebSocket that stays
      has nothing to say. The documentation promises it without a condition. */
  lemma CodeArrivesExactlyIfSilent(s: Ws, x: Script, y: Script)
    requires WsInit(s) && Plausible(x) && Plausible(y) && x.close.PeerClose? && y.close.NoEnd?
    ensures AlwaysArrives(s, x, y) <==> y.messages == []
  {
    if y.messages == [] {
      forall run: seq<RelayStep> |
          CanRunWs(s, run) && FaultFreeRun(s, x, y, run) && Stuck(RunWs(s, run), x, y)
        ensures Arrived(RunWs(s, run), x)
      {
        ArrivesIfSilent(s, x, y, run);
      }
    } else {
      var run := CodeLost(s, x, y);
    }
  }
}
