/** What becomes of the pump once nobody reads the response any more: the edge's
    handler has left, and with it the only goroutine that returns credit.
    internal/connector/proxy.go, internal/edge/edge.go */
module HttpAbandoned {
  import opened Frames
  import opened Window
  import opened Channel
  import opened ChannelInvariants
  import opened FlowControl
  import opened HttpStream
  import opened HttpStreamSafety

  /** The connector's connection fails: nothing below is about such runs. */
  predicate ConnectorFault(st: HttpStep) {
    st == OfLink(Left, BreakWrites) || st == OfLink(Left, StopReader)
  }

  predicate ConnectorUp(run: seq<HttpStep>) {
    forall i :: 0 <= i < |run| ==> !ConnectorFault(run[i])
  }

  /** The handler has left its loop; or the timer has discarded the session before any
      handler has found it. */
  predicate Unserved(v: Serve) { Ended(v) || (v.at.Unclaimed? && v.timer.Discarded?) }

  /** Nobody serves the response, and the connector's connection is up. */
  predicate EdgeLeft(s: Http) {
    && HttpInv(s) && s.ch.a.loc.opener
    && Unserved(s.serve) && !s.ch.a.port.wrBroken && !s.ch.a.port.rdStopped
  }

  /** The credits the pump has, or will be given. */
  function Allowance(s: Channel): nat {
    s.a.loc.q.credit + CreditSum(s.ba) + CreditOf(s.a.port.hand)
  }

  /** The pump waits for a credit, and none will ever come. */
  predicate Stranded(s: Http) {
    EdgeLeft(s) && s.pump.at.Want? && Allowance(s.ch) == 0
  }

  /** What every fair step keeps, every fair run keeps. */
  lemma {:induction false} Always(keeps: Http -> bool, fair: HttpStep -> bool, s: Http, run: seq<HttpStep>)
    requires keeps(s) && CanRunHttp(s, run) && forall i :: 0 <= i < |run| ==> fair(run[i])
    requires forall t: Http, st: HttpStep :: keeps(t) && fair(st) && CanHttp(t, st) ==> keeps(DoHttp(t, st))
    ensures keeps(RunHttp(s, run))
    decreases |run|
  {
    if run != [] {
      Always(keeps, fair, DoHttp(s, run[0]), run[1..]);
    }
  }

  // One step.

  lemma Started(s: Http)
    requires EdgeLeft(s)
    ensures s.ch.a.loc.announced && NoOpen(s.ch.ab) && NoOpen(s.ch.ba)
    ensures if s.pump.at.Finished? then Over(s.ch.a.loc.life) else s.ch.a.loc.life.Live?
  {
    assert Opening(s.ch) && Opening(Flip(s.ch));
  }

  /** What an act of the pump does to its end: it takes a credit, or none. */
  lemma PumpFrame(s: Http, act: PumpAct)
    requires CanHttp(s, OfPump(act)) && s.ch.a.loc.opener
    ensures var t := DoHttp(s, OfPump(act));
      && t.ch.ba == s.ch.ba && t.ch.a.port == s.ch.a.port && t.serve == s.serve
      && t.ch.a.loc.q == (if act.GetCredit? then s.ch.a.loc.q.(credit := s.ch.a.loc.q.credit - 1) else s.ch.a.loc.q)
      && t.pump == PumpNext(s.ch.a.port.wrBroken, s.pump, act)
  {
  }

  lemma LeftByPump(s: Http, act: PumpAct)
    requires EdgeLeft(s) && CanHttp(s, OfPump(act))
    ensures var t := DoHttp(s, OfPump(act));
      && EdgeLeft(t)
      && t.ch.ba == s.ch.ba && t.ch.a.port == s.ch.a.port && t.serve == s.serve
      && Allowance(t.ch) == Allowance(s.ch) - (if act.GetCredit? then 1 else 0)
      && t.pump == PumpNext(false, s.pump, act)
  {
    HttpStepKeeps(s, OfPump(act));
    PumpFrame(s, act);
  }

  lemma LeftByServe(s: Http, act: ServeAct)
    requires EdgeLeft(s) && CanHttp(s, OfServe(act))
    ensures var t := DoHttp(s, OfServe(act));
      EdgeLeft(t) && Allowance(t.ch) == Allowance(s.ch) && t.pump == s.pump
  {
    HttpStepKeeps(s, OfServe(act));
    StaysUnserved(s.ch.b, s.serve, act);
    PerformAllowance(s.ch, ServeCall(s.ch.b.loc, act));
  }

  lemma StaysUnserved(e: End, v: Serve, act: ServeAct)
    requires ServeCan(e, v, act) && Unserved(v) && EdgeOwns(e, v)
    ensures Unserved(ServeNext(e.loc, v, act))
    ensures var call := ServeCall(e.loc, act); call.Call? ==> call.act.SendControl? || call.act.RemoveFromMap?
  {
  }

  lemma PerformAllowance(s: Channel, call: Call)
    requires call.Call? ==> Enabled(Flip(s), call.act) && (call.act.SendControl? || call.act.RemoveFromMap?)
    ensures var t := Perform(s, Right, call); t.a == s.a && Allowance(t) == Allowance(s)
  {
    if call.Call? {
      EdgeCallAllowance(s, call.act);
    }
  }

  /** What the handler and the timer still write carries no credit. */
  lemma EdgeCallAllowance(s: Channel, act: Act)
    requires Enabled(Flip(s), act) && (act.SendControl? || act.RemoveFromMap?)
    ensures var t := Flip(Apply(Flip(s), act)); t.a == s.a && Allowance(t) == Allowance(s)
  {
    PushCounts(s.ba, Out(Flip(s), act));
  }

  lemma LeftByEdgeLink(s: Http, act: Act)
    requires EdgeLeft(s) && CanHttp(s, OfLink(Right, act))
    ensures var t := DoHttp(s, OfLink(Right, act));
      EdgeLeft(t) && Allowance(t.ch) == Allowance(s.ch) && t.pump == s.pump
  {
    HttpStepKeeps(s, OfLink(Right, act));
    Started(s);
    EdgeLinkAllowance(s.ch, act);
  }

  lemma EdgeLinkAllowance(s: Channel, act: Act)
    requires Enabled(Flip(s), act) && LinkMay(s.b, act) && NoOpen(s.ab) && !s.b.loc.opener
    ensures var t := Flip(Apply(Flip(s), act)); t.a == s.a && Allowance(t) == Allowance(s)
  {
    PushCounts(s.ba, Out(Flip(s), act));
  }

  /** The connector's reader turns window frames into credit, all of it as long as
      the session is there. */
  lemma LeftByConnectorLink(s: Http, act: Act)
    requires EdgeLeft(s) && CanHttp(s, OfLink(Left, act)) && !ConnectorFault(OfLink(Left, act))
    ensures var t := DoHttp(s, OfLink(Left, act));
      && EdgeLeft(t) && t.pump == s.pump
      && Allowance(t.ch) <= Allowance(s.ch)
      && (!s.pump.at.Finished? ==> Allowance(t.ch) == Allowance(s.ch))
  {
    HttpStepKeeps(s, OfLink(Left, act));
    Started(s);
    InvNoOverrun(s.ch);
    NoExcess(s.ch);
    ConnectorLinkAllowance(s.ch, act);
  }

  lemma NoExcess(s: Channel)
    requires Inv(s)
    ensures s.a.port.hand.Full? && s.a.port.hand.frame.Window? ==>
      s.a.loc.q.credit + s.a.port.hand.frame.credits <= SEND_WINDOW
  {
  }

  lemma ConnectorLinkAllowance(s: Channel, act: Act)
    requires Enabled(s, act) && LinkMay(s.a, act) && NoOpen(s.ba) && !Overrun(s)
    requires s.a.port.hand.Full? && s.a.port.hand.frame.Window? ==>
      s.a.loc.q.credit + s.a.port.hand.frame.credits <= SEND_WINDOW
    requires !s.a.port.wrBroken && s.a.loc.opener && s.a.loc.announced && !s.a.loc.life.Absent?
    ensures Allowance(Apply(s, act)) <= Allowance(s)
    ensures s.a.loc.life.Live? ==> Allowance(Apply(s, act)) == Allowance(s)
  {
  }

  /** Any other step than the pump's leaves the pump and its allowance alone. */
  lemma OthersStep(s: Http, st: HttpStep)
    requires EdgeLeft(s) && CanHttp(s, st) && !ConnectorFault(st) && !st.OfPump?
    ensures var t := DoHttp(s, st);
      && EdgeLeft(t) && t.pump == s.pump
      && Allowance(t.ch) <= Allowance(s.ch)
      && (!s.pump.at.Finished? ==> Allowance(t.ch) == Allowance(s.ch))
  {
    match st
    case OfServe(sa) => LeftByServe(s, sa);
    case OfLink(side, act) =>
      if side.Left? {
        LeftByConnectorLink(s, act);
      } else {
        LeftByEdgeLink(s, act);
      }
  }

  // Stranded is for good.

  lemma StrandedPump(s: Http, act: PumpAct)
    requires Stranded(s)
    ensures !CanHttp(s, OfPump(act))
  {
    Started(s);
  }

  lemma StrandedStep(s: Http, st: HttpStep)
    requires Stranded(s) && CanHttp(s, st) && !ConnectorFault(st)
    ensures Stranded(DoHttp(s, st)) && DoHttp(s, st).pump == s.pump
  {
    if st.OfPump? {
      StrandedPump(s, st.pa);
    } else {
      OthersStep(s, st);
    }
  }

  /** A stranded pump stays so for as long as the connector's connection lasts: it
      never moves again, so its session stays registered, and what it would have
      cleaned up on its way out (the request in flight, the backend's body) stays. */
  lemma StrandedForever(s: Http, run: seq<HttpStep>)
    requires Stranded(s) && CanRunHttp(s, run) && ConnectorUp(run)
    ensures var t := RunHttp(s, run);
      && Stranded(t) && t.pump == s.pump && t.ch.a.loc.life.Live?
      && (forall act: PumpAct :: !CanHttp(t, OfPump(act)))
  {
    var stays := (t: Http) => Stranded(t) && t.pump == s.pump;
    var fair := (st: HttpStep) => !ConnectorFault(st);
    forall t: Http, st: HttpStep | stays(t) && fair(st) && CanHttp(t, st)
      ensures stays(DoHttp(t, st))
    {
      StrandedStep(t, st);
    }
    Always(stays, fair, s, run);
    StrandedPumps(RunHttp(s, run));
  }

  lemma StrandedPumps(s: Http)
    requires Stranded(s)
    ensures s.ch.a.loc.life.Live? && forall act: PumpAct :: !CanHttp(s, OfPump(act))
  {
    Started(s);
    forall act: PumpAct
      ensures !CanHttp(s, OfPump(act))
    {
      StrandedPump(s, act);
    }
  }

  // When the pump can be stranded.

  /** The most sends the pump can still make, one byte each. */
  function SendsLeft(p: Pump): nat {
    match p.at
    case Waiting => |p.unread|
    case Reading => |p.unread|
    case Want(_, next) => 1 + (if next.NoEnd? then |p.unread| else 0)
    case Have(_, next) => if next.NoEnd? then |p.unread| else 0
    case _ => 0
  }

  lemma EnoughStep(s: Http, st: HttpStep)
    requires EdgeLeft(s) && CanHttp(s, st) && !ConnectorFault(st)
    requires SendsLeft(s.pump) <= Allowance(s.ch)
    ensures EdgeLeft(DoHttp(s, st)) && SendsLeft(DoHttp(s, st).pump) <= Allowance(DoHttp(s, st).ch)
  {
    if st.OfPump? {
      LeftByPump(s, st.pa);
      SendsFall(s.ch.a.loc, s.pump, st.pa);
    } else {
      OthersStep(s, st);
    }
  }

  /** A send uses up one of the sends left, and nothing adds to them. */
  lemma SendsFall(l: Local, p: Pump, act: PumpAct)
    requires PumpAtAct(l, p, act)
    ensures SendsLeft(PumpNext(false, p, act)) + (if act.GetCredit? then 1 else 0) <= SendsLeft(p)
  {
  }

  lemma EnoughCredit(s: Http, run: seq<HttpStep>)
    requires EdgeLeft(s) && CanRunHttp(s, run) && ConnectorUp(run)
    requires SendsLeft(s.pump) <= Allowance(s.ch)
    ensures !Stranded(RunHttp(s, run))
  {
    var enough := (t: Http) => EdgeLeft(t) && SendsLeft(t.pump) <= Allowance(t.ch);
    var fair := (st: HttpStep) => !ConnectorFault(st);
    forall t: Http, st: HttpStep | enough(t) && fair(st) && CanHttp(t, st)
      ensures enough(DoHttp(t, st))
    {
      EnoughStep(t, st);
    }
    Always(enough, fair, s, run);
    NoneWanting(RunHttp(s, run));
  }

  lemma NoneWanting(s: Http)
    requires SendsLeft(s.pump) <= Allowance(s.ch)
    ensures !(s.pump.at.Want? && Allowance(s.ch) == 0)
  {
  }

  predicate Fair(st: HttpStep) { !ConnectorFault(st) && !BackendFails(st) }

  predicate FairRun(run: seq<HttpStep>) { forall i :: 0 <= i < |run| ==> Fair(run[i]) }

  /** A goal that a fair step always brings nearer is reached by a fair run. */
  lemma {:induction false} Reach(keeps: Http -> bool, goal: Http -> bool, next: Http -> HttpStep, left: Http -> nat, s: Http)
      returns (run: seq<HttpStep>)
    requires keeps(s)
    requires forall t: Http :: keeps(t) && !goal(t) ==>
      CanHttp(t, next(t)) && Fair(next(t)) && keeps(DoHttp(t, next(t))) && left(DoHttp(t, next(t))) < left(t)
    ensures CanRunHttp(s, run) && FairRun(run) && keeps(RunHttp(s, run)) && goal(RunHttp(s, run))
    decreases left(s)
  {
    if goal(s) {
      run := [];
    } else {
      var rest := Reach(keeps, goal, next, left, DoHttp(s, next(s)));
      run := [next(s)] + rest;
      assert run[1..] == rest;
    }
  }

  predicate Drained(s: Http) { EdgeLeft(s) && s.ch.ba == [] && s.ch.a.port.hand.Empty? }

  function DrainStep(s: Http): HttpStep {
    OfLink(Left, if s.ch.a.port.hand.Full? then Deliver(false) else LookUp(Accept))
  }

  function ToRead(s: Http): nat { 2 * |s.ch.ba| + (if s.ch.a.port.hand.Full? then 1 else 0) }

  lemma DrainEnabled(s: Http)
    requires EdgeLeft(s) && ToRead(s) > 0
    ensures CanHttp(s, DrainStep(s)) && Fair(DrainStep(s))
    ensures ToRead(DoHttp(s, DrainStep(s))) < ToRead(s) && DoHttp(s, DrainStep(s)).serve == s.serve
  {
  }

  /** The reader catches up. */
  lemma Drain(s: Http) returns (run: seq<HttpStep>)
    requires EdgeLeft(s) && !s.pump.at.Finished?
    ensures CanRunHttp(s, run) && FairRun(run)
    ensures var t := RunHttp(s, run);
      Drained(t) && t.pump == s.pump && t.serve == s.serve && Allowance(t.ch) == Allowance(s.ch)
  {
    var keeps := (t: Http) =>
      EdgeLeft(t) && t.pump == s.pump && t.serve == s.serve && Allowance(t.ch) == Allowance(s.ch);
    var goal := (t: Http) => ToRead(t) == 0;
    forall t: Http | keeps(t) && !goal(t)
      ensures CanHttp(t, DrainStep(t)) && Fair(DrainStep(t)) && keeps(DoHttp(t, DrainStep(t)))
      ensures ToRead(DoHttp(t, DrainStep(t))) < ToRead(t)
    {
      DrainEnabled(t);
      OthersStep(t, DrainStep(t));
    }
    run := Reach(keeps, goal, DrainStep, ToRead, s);
  }

  function Phase(at: PumpAt): nat {
    match at
    case Waiting => 3
    case Have(_, _) => 3
    case Reading => 2
    case _ => 1
  }

  function SpendWork(s: Http): nat { 4 * SendsLeft(s.pump) + Phase(s.pump.at) }

  /** One byte at a time, the pump runs out of credit. */
  lemma Spend(s: Http) returns (run: seq<HttpStep>)
    requires Drained(s) && SendsLeft(s.pump) > Allowance(s.ch)
    ensures CanRunHttp(s, run) && FairRun(run)
    ensures Stranded(RunHttp(s, run)) && RunHttp(s, run).serve == s.serve
  {
    var keeps := (t: Http) => Drained(t) && SendsLeft(t.pump) > Allowance(t.ch) && t.serve == s.serve;
    var goal := (t: Http) => t.pump.at.Want? && t.ch.a.loc.q.credit == 0;
    var next := (t: Http) => OfPump(SpendAct(t.pump));
    forall t: Http | keeps(t) && !goal(t)
      ensures CanHttp(t, next(t)) && Fair(next(t)) && keeps(DoHttp(t, next(t)))
      ensures SpendWork(DoHttp(t, next(t))) < SpendWork(t)
    {
      SpendStep(t);
    }
    run := Reach(keeps, goal, next, SpendWork, s);
    OutOfCredit(RunHttp(s, run));
  }

  lemma OutOfCredit(s: Http)
    requires Drained(s) && s.pump.at.Want? && s.ch.a.loc.q.credit == 0
    ensures Stranded(s)
  {
  }

  function SpendAct(p: Pump): PumpAct {
    match p.at
    case Waiting => PumpAct.Started
    case Reading => ReadBody(1, NoEnd)
    case Want(_, _) => GetCredit
    case _ => WriteData
  }

  lemma SpendStep(s: Http)
    requires Drained(s) && SendsLeft(s.pump) > Allowance(s.ch)
    requires s.pump.at.Want? ==> s.ch.a.loc.q.credit > 0
    ensures var act := OfPump(SpendAct(s.pump));
      && CanHttp(s, act) && Fair(act)
      && (var t := DoHttp(s, act);
          && Drained(t) && SendsLeft(t.pump) > Allowance(t.ch) && t.serve == s.serve
          && SpendWork(t) < SpendWork(s))
  {
    SpendEnabled(s);
    SpendAdvances(s.ch.a.loc, s.pump);
    LeftByPump(s, SpendAct(s.pump));
  }

  lemma SpendEnabled(s: Http)
    requires Drained(s) && SendsLeft(s.pump) > 0 && (s.pump.at.Want? ==> s.ch.a.loc.q.credit > 0)
    ensures CanHttp(s, OfPump(SpendAct(s.pump)))
  {
    Started(s);
  }

  lemma SpendAdvances(l: Local, p: Pump)
    requires SendsLeft(p) > 0 && PumpAtAct(l, p, SpendAct(p))
    ensures var act := SpendAct(p);
      var p' := PumpNext(false, p, act);
      && !BackendFails(OfPump(act))
      && SendsLeft(p') == SendsLeft(p) - (if act.GetCredit? then 1 else 0)
      && (act.GetCredit? || Phase(p'.at) < Phase(p.at))
  {
  }

  ghost predicate CanStrand(s: Http) {
    exists run :: CanRunHttp(s, run) && ConnectorUp(run) && Stranded(RunHttp(s, run))
  }

  lemma UpTwo(x: seq<HttpStep>, y: seq<HttpStep>)
    ensures ConnectorUp(x) && ConnectorUp(y) ==> ConnectorUp(x + y)
    ensures FairRun(x) && FairRun(y) ==> FairRun(x + y)
    ensures FairRun(x) ==> ConnectorUp(x) && BackendUp(x)
    ensures FairRun(y) ==> ConnectorUp(y) && BackendUp(y)
    ensures FairRun(x + y) ==> ConnectorUp(x + y) && BackendUp(x + y)
  {
  }

  lemma Strand(s: Http) returns (run: seq<HttpStep>)
    requires EdgeLeft(s) && SendsLeft(s.pump) > Allowance(s.ch)
    ensures CanRunHttp(s, run) && ConnectorUp(run)
    ensures Stranded(RunHttp(s, run)) && RunHttp(s, run).serve == s.serve
  {
    var x := Drain(s);
    var y := Spend(RunHttp(s, x));
    RunTwo(s, x, y);
    UpTwo(x, y);
    run := x + y;
  }

  /** Once nobody serves the response, for whatever reason, the pump can be stranded if
      and only if it may have more sends to make than there are credits left for it:
      read one byte at a time, the rest of the body takes more. */
  lemma StrandsExactlyBeyondCredit(s: Http, run: seq<HttpStep>)
    requires HttpInit(s) && CanRunHttp(s, run)
    requires var t := RunHttp(s, run); Unserved(t.serve) && !t.ch.a.port.wrBroken && !t.ch.a.port.rdStopped
    ensures var t := RunHttp(s, run); CanStrand(t) <==> SendsLeft(t.pump) > Allowance(t.ch)
  {
    HttpReached(s, run);
    var t := RunHttp(s, run);
    if SendsLeft(t.pump) > Allowance(t.ch) {
      var more := Strand(t);
    } else {
      forall more | CanRunHttp(t, more) && ConnectorUp(more)
        ensures !Stranded(RunHttp(t, more))
      {
        EnoughCredit(t, more);
      }
    }
  }

  /** The claim timer, too, can leave the pump behind: for every such body there is a
      run in which nobody claims the session, the timer discards it, and the pump is
      stranded. */
  lemma DiscardCanStrand(s: Http) returns (run: seq<HttpStep>)
    requires HttpInit(s) && |s.pump.unread| > SEND_WINDOW
    ensures CanRunHttp(s, run) && ConnectorUp(run)
    ensures var t := RunHttp(s, run); Stranded(t) && t.serve.at.Unclaimed? && t.serve.timer.Discarded?
  {
    var x := CanBeAccepted(s);
    assert ConnectorUp(x);
    var y := TimerDiscards(RunHttp(s, x));
    RunTwo(s, x, y);
    UpTwo(x, y);
    HttpReached(s, x + y);
    run := StrandLater(s, x + y);
  }

  lemma TimerDiscards(s: Http) returns (run: seq<HttpStep>)
    requires JustAccepted(s)
    ensures CanRunHttp(s, run) && ConnectorUp(run)
    ensures var t := RunHttp(s, run);
      t.serve.at.Unclaimed? && t.serve.timer.Discarded? && t.pump == s.pump && t.ch.a == s.ch.a
  {
    var x := Then(s, [], OfServe(TimerFires));
    var y := TimerGoesOn(RunHttp(s, x));
    RunTwo(s, x, y);
    UpTwo(x, y);
    run := x + y;
  }

  lemma TimerGoesOn(s: Http) returns (run: seq<HttpStep>)
    requires s.serve.timer.Decided? && s.ch.b.loc.life.Live? && !s.ch.b.loc.opener
    ensures CanRunHttp(s, run) && ConnectorUp(run)
    ensures var t := RunHttp(s, run);
      t.serve == s.serve.(timer := Discarded) && t.pump == s.pump && t.ch.a == s.ch.a
  {
    run := Then(s, [], OfServe(TimerReports));
    run := Then(s, run, OfServe(TimerRemoves));
  }

  /** So a client that goes away can leave the connector with a session, a request in
      flight and an open backend response that only the end of the connection will
      free: for every body of more bytes than the window has credits there is a run
      in which the client leaves, the handler closes the session and returns, and the
      pump is stranded. */
  lemma DisconnectCanStrand(s: Http) returns (run: seq<HttpStep>)
    requires HttpInit(s) && |s.pump.unread| > SEND_WINDOW
    ensures CanRunHttp(s, run) && ConnectorUp(run)
    ensures var t := RunHttp(s, run); Stranded(t) && t.serve.cause.ClientGone? && t.serve.at.Gone?
  {
    var x := CanBeAccepted(s);
    assert ConnectorUp(x);
    var y := ClientGoes(RunHttp(s, x));
    RunTwo(s, x, y);
    UpTwo(x, y);
    HttpReached(s, x + y);
    run := StrandLater(s, x + y);
  }

  lemma StrandLater(s: Http, x: seq<HttpStep>) returns (run: seq<HttpStep>)
    requires CanRunHttp(s, x) && ConnectorUp(x)
    requires var t := RunHttp(s, x); EdgeLeft(t) && SendsLeft(t.pump) > SEND_WINDOW
    ensures CanRunHttp(s, run) && ConnectorUp(run)
    ensures Stranded(RunHttp(s, run)) && RunHttp(s, run).serve == RunHttp(s, x).serve
  {
    AtMostAWindow(RunHttp(s, x).ch);
    var z := Strand(RunHttp(s, x));
    RunTwo(s, x, z);
    UpTwo(x, z);
    run := x + z;
  }

  lemma AtMostAWindow(s: Channel)
    requires Inv(s)
    ensures Allowance(s) <= SEND_WINDOW
  {
  }

  lemma ClientGoes(s: Http) returns (run: seq<HttpStep>)
    requires JustAccepted(s)
    ensures CanRunHttp(s, run) && ConnectorUp(run)
    ensures var t := RunHttp(s, run);
      t.serve.at.Gone? && t.serve.cause.ClientGone? && t.pump == s.pump && t.ch.a == s.ch.a
  {
    var x := ClientComes(s);
    var y := ClientLeft(RunHttp(s, x));
    RunTwo(s, x, y);
    UpTwo(x, y);
    run := x + y;
  }

  lemma ClientComes(s: Http) returns (run: seq<HttpStep>)
    requires JustAccepted(s)
    ensures CanRunHttp(s, run) && ConnectorUp(run)
    ensures var t := RunHttp(s, run);
      t.serve.at.Selecting? && t.ch.b.loc.life.Live? && !t.ch.b.loc.opener && t.pump == s.pump && t.ch.a == s.ch.a
  {
    run := Then(s, [], OfServe(FindSession));
    run := Then(s, run, OfServe(Claim));
  }

  lemma ClientLeft(s: Http) returns (run: seq<HttpStep>)
    requires s.serve.at.Selecting? && s.ch.b.loc.life.Live? && !s.ch.b.loc.opener
    ensures CanRunHttp(s, run) && ConnectorUp(run)
    ensures var t := RunHttp(s, run);
      t.serve.at.Gone? && t.serve.cause.ClientGone? && t.pump == s.pump && t.ch.a == s.ch.a
  {
    run := Then(s, [], OfServe(ClientLeaves));
    run := Then(s, run, OfServe(DeferClose));
    run := Then(s, run, OfServe(DeferRemove));
  }

  // When the pump can finish.

  function Chunks(n: nat): nat { (n + BODY_BUFFER - 1) / BODY_BUFFER }

  /** The fewest sends that bring the pump to the end of the body. */
  function SendsNeeded(p: Pump): nat {
    match p.at
    case Waiting => Chunks(|p.unread|)
    case Reading => Chunks(|p.unread|)
    case Want(_, next) => 1 + (if next.NoEnd? then Chunks(|p.unread|) else 0)
    case Have(_, next) => if next.NoEnd? then Chunks(|p.unread|) else 0
    case _ => 0
  }

  lemma ShortStep(s: Http, st: HttpStep)
    requires EdgeLeft(s) && CanHttp(s, st) && !ConnectorFault(st) && !BackendFails(st)
    requires SendsNeeded(s.pump) > Allowance(s.ch)
    ensures EdgeLeft(DoHttp(s, st)) && SendsNeeded(DoHttp(s, st).pump) > Allowance(DoHttp(s, st).ch)
  {
    if st.OfPump? {
      Started(s);
      LeftByPump(s, st.pa);
      NeedFalls(s.ch.a.loc, s.pump, st.pa);
    } else {
      OthersStep(s, st);
    }
  }

  /** No act of the pump but a send brings the end of the body nearer. */
  lemma NeedFalls(l: Local, p: Pump, act: PumpAct)
    requires PumpAtAct(l, p, act) && !BackendFails(OfPump(act)) && PumpEnds(l, p) && SendsNeeded(p) > 0 && !l.life.Done?
    ensures SendsNeeded(PumpNext(false, p, act)) >= SendsNeeded(p) - (if act.GetCredit? then 1 else 0)
  {
  }

  lemma ShortOfCredit(s: Http, run: seq<HttpStep>)
    requires EdgeLeft(s) && CanRunHttp(s, run) && ConnectorUp(run) && BackendUp(run)
    requires SendsNeeded(s.pump) > Allowance(s.ch)
    ensures !RunHttp(s, run).pump.at.Finished?
  {
    var short := (t: Http) => EdgeLeft(t) && SendsNeeded(t.pump) > Allowance(t.ch);
    var fair := (st: HttpStep) => !ConnectorFault(st) && !BackendFails(st);
    forall t: Http, st: HttpStep | short(t) && fair(st) && CanHttp(t, st)
      ensures short(DoHttp(t, st))
    {
      ShortStep(t, st);
    }
    Always(short, fair, s, run);
  }

  function PhaseToEnd(at: PumpAt): nat {
    match at
    case Waiting => 8
    case Have(_, _) => 8
    case Reading => 7
    case Want(_, _) => 6
    case SendingEof => 3
    case Closing => 2
    case Failing => 2
    case Removing => 1
    case Finished => 0
  }

  function FinishWork(s: Http): nat { 9 * SendsNeeded(s.pump) + PhaseToEnd(s.pump.at) }

  /** With full chunks, the pump gets to the end of the body and finishes. */
  lemma Finish(s: Http) returns (run: seq<HttpStep>)
    requires Drained(s) && SendsNeeded(s.pump) <= Allowance(s.ch)
    ensures CanRunHttp(s, run) && FairRun(run)
    ensures RunHttp(s, run).pump.at.Finished?
  {
    var keeps := (t: Http) => Drained(t) && SendsNeeded(t.pump) <= Allowance(t.ch);
    var goal := (t: Http) => t.pump.at.Finished?;
    var next := (t: Http) => OfPump(FinishAct(t.pump));
    forall t: Http | keeps(t) && !goal(t)
      ensures CanHttp(t, next(t)) && Fair(next(t)) && keeps(DoHttp(t, next(t)))
      ensures FinishWork(DoHttp(t, next(t))) < FinishWork(t)
    {
      FinishStep(t);
    }
    run := Reach(keeps, goal, next, FinishWork, s);
  }

  function FinishAct(p: Pump): PumpAct {
    match p.at
    case Waiting => PumpAct.Started
    case Reading => if |p.unread| <= BODY_BUFFER then ReadBody(|p.unread|, EndOfBody) else ReadBody(BODY_BUFFER, NoEnd)
    case Want(_, _) => GetCredit
    case Have(_, _) => WriteData
    case SendingEof => SendEof
    case Closing => SendClose
    case Failing => SendFailure
    case _ => Remove
  }

  lemma FinishStep(s: Http)
    requires Drained(s) && SendsNeeded(s.pump) <= Allowance(s.ch) && !s.pump.at.Finished?
    ensures var act := OfPump(FinishAct(s.pump));
      && CanHttp(s, act) && Fair(act)
      && (var t := DoHttp(s, act);
          Drained(t) && SendsNeeded(t.pump) <= Allowance(t.ch) && FinishWork(t) < FinishWork(s))
  {
    FinishEnabled(s);
    FinishAdvances(s.ch.a.loc, s.pump);
    LeftByPump(s, FinishAct(s.pump));
  }

  lemma FinishEnabled(s: Http)
    requires Drained(s) && SendsNeeded(s.pump) <= Allowance(s.ch) && !s.pump.at.Finished?
    ensures CanHttp(s, OfPump(FinishAct(s.pump)))
  {
    Started(s);
  }

  lemma FinishAdvances(l: Local, p: Pump)
    requires !p.at.Finished? && PumpAtAct(l, p, FinishAct(p))
    ensures var act := FinishAct(p);
      var p' := PumpNext(false, p, act);
      && !BackendFails(OfPump(act))
      && SendsNeeded(p') == SendsNeeded(p) - (if act.GetCredit? then 1 else 0)
      && (act.GetCredit? || PhaseToEnd(p'.at) < PhaseToEnd(p.at))
  {
  }

  ghost predicate CanFinish(s: Http) {
    exists run :: CanRunHttp(s, run) && ConnectorUp(run) && BackendUp(run) && RunHttp(s, run).pump.at.Finished?
  }

  lemma UpToEnd(s: Http) returns (run: seq<HttpStep>)
    requires EdgeLeft(s) && SendsNeeded(s.pump) <= Allowance(s.ch)
    ensures CanRunHttp(s, run) && ConnectorUp(run) && BackendUp(run) && RunHttp(s, run).pump.at.Finished?
  {
    if s.pump.at.Finished? {
      run := [];
    } else {
      var x := Drain(s);
      var y := Finish(RunHttp(s, x));
      RunTwo(s, x, y);
      UpTwo(x, y);
      run := x + y;
    }
  }

  /** Once nobody serves the response, the pump can still get to the end of the body if and
      only if the credits left for it are enough for what is left, in full chunks. If
      they are not, then neither the peer's close nor anything else but a failure of
      the connection or of the backend ever makes it return. */
  lemma FinishesExactlyWithinCredit(s: Http, run: seq<HttpStep>)
    requires HttpInit(s) && CanRunHttp(s, run)
    requires var t := RunHttp(s, run); Unserved(t.serve) && !t.ch.a.port.wrBroken && !t.ch.a.port.rdStopped
    ensures var t := RunHttp(s, run); CanFinish(t) <==> SendsNeeded(t.pump) <= Allowance(t.ch)
  {
    HttpReached(s, run);
    var t := RunHttp(s, run);
    if SendsNeeded(t.pump) <= Allowance(t.ch) {
      var more := UpToEnd(t);
    } else {
      forall more | CanRunHttp(t, more) && ConnectorUp(more) && BackendUp(more)
        ensures !RunHttp(t, more).pump.at.Finished?
      {
        ShortOfCredit(t, more);
      }
    }
  }
}
