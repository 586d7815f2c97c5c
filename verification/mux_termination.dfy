/** Total correctness of a link with sessions of all kinds, when nothing fails: none of
    them, stalled or not, keeps another from its end.
    internal/datatunnel/link.go, internal/datatunnel/relay.go, internal/connector/proxy.go */
module MuxTermination {
  import opened Frames
  import opened Channel
  import opened Mux
  import opened MuxMixed
  import T = TcpRelay
  import W = WsRelay
  import H = HttpStream
  import Tcp = TcpTermination
  import Ws = WsTermination
  import Http = HttpTermination

  /** What the outside does to the users of a session: a WebSocket follows its script. */
  datatype Plan = NoPlan | Scripts(x: Ws.Script, y: Ws.Script)

  // One session.

  predicate PlanFits(m: Member, plan: Plan) {
    m.OfWs? ==> plan.Scripts? && Ws.Plausible(plan.x) && Ws.Plausible(plan.y)
  }

  predicate FaultFree(m: Member, plan: Plan, ps: PartyStep)
    requires PlanFits(m, plan)
  {
    match m
    case OfTcp(_) => ps.TcpStep? && Tcp.FaultFree(ps.t.act)
    case OfWs(s) => ps.WsStep? && Ws.FaultFreeStep(s, plan.x, plan.y, ps.w)
    case OfHttp(s) => ps.HttpStep? && Http.FaultFree(s, ps.h)
  }

  predicate FaultFreeMember(m: Member, plan: Plan, run: seq<PartyStep>)
    requires PlanFits(m, plan) && CanRunMember(m, run)
    decreases |run|
  {
    run == [] || (FaultFree(m, plan, run[0]) && FaultFreeMember(DoMember(m, run[0]), plan, run[1..]))
  }

  ghost predicate Stuck(m: Member, plan: Plan)
    requires PlanFits(m, plan)
  {
    forall ps: PartyStep :: FaultFree(m, plan, ps) ==> !CanMember(m, ps)
  }

  /** The most steps a session takes. */
  function Bound(m: Member, plan: Plan): nat
    requires PlanFits(m, plan)
  {
    match m
    case OfTcp(s) => 10 * |s.a.rd.unread| + 10 * |s.b.rd.unread| + 36
    case OfWs(_) => 10 * |plan.x.messages| + 10 * |plan.y.messages| + 36
    case OfHttp(s) => 10 * |s.pump.unread| + 28
  }

  /** How a session ends. */
  predicate Ends(m: Member, plan: Plan, t: Member)
    requires PlanFits(m, plan)
  {
    match m
    case OfTcp(s) =>
      t.OfTcp? && Tcp.AllGone(t.tcp) && t.tcp.b.lp.written == s.a.rd.unread && t.tcp.a.lp.written == s.b.rd.unread
    case OfWs(_) =>
      && t.OfWs?
      && (if plan.x.close.NoEnd? && plan.y.close.NoEnd? then
            t.ws.b.lp.written == plan.x.messages && t.ws.a.lp.written == plan.y.messages
          else Ws.AllGone(t.ws))
      && (plan.x.close.PeerClose? && plan.y.close.NoEnd? ==>
            && t.ws.b.lp.written == plan.x.messages
            && (t.ws.b.lp.told == Full(Close(plan.x.close.code, plan.x.close.text)) <==> !t.ws.a.lp.writeFailed))
    case OfHttp(s) =>
      t.OfHttp? && Http.AllGone(t.http) && Http.EndsWith(t.http, s.pump.unread)
  }

  lemma {:induction false} TcpFaultFree(s: T.Tcp, run: seq<PartyStep>)
    requires CanRunMember(OfTcp(s), run) && FaultFreeMember(OfTcp(s), NoPlan, run)
    ensures Tcp.AllFaultFree(Tcps(run)) && |Tcps(run)| == |run|
    decreases |run|
  {
    if run != [] {
      TcpFaultFree(T.DoRelay(s, run[0].t), run[1..]);
      assert Tcps(run) == [run[0].t] + Tcps(run[1..]);
    }
  }

  lemma {:induction false} WsFaultFree(s: W.Ws, plan: Plan, run: seq<PartyStep>)
    requires PlanFits(OfWs(s), plan) && CanRunMember(OfWs(s), run) && FaultFreeMember(OfWs(s), plan, run)
    requires W.CanRunWs(s, Wss(run))
    ensures Ws.FaultFreeRun(s, plan.x, plan.y, Wss(run)) && |Wss(run)| == |run|
    decreases |run|
  {
    if run != [] {
      assert Wss(run) == [run[0].w] + Wss(run[1..]);
      WsFaultFree(W.DoRelay(s, run[0].w), plan, run[1..]);
    }
  }

  lemma {:induction false} HttpFaultFree(s: H.Http, run: seq<PartyStep>)
    requires CanRunMember(OfHttp(s), run) && FaultFreeMember(OfHttp(s), NoPlan, run)
    requires H.CanRunHttp(s, Https(run))
    ensures Http.FaultFreeRun(s, Https(run)) && |Https(run)| == |run|
    decreases |run|
  {
    if run != [] {
      assert Https(run) == [run[0].h] + Https(run[1..]);
      HttpFaultFree(H.DoHttp(s, run[0].h), run[1..]);
    }
  }

  /** The plan matters to WebSockets only. */
  lemma {:induction false} NoPlanNeeded(m: Member, plan: Plan, run: seq<PartyStep>)
    requires !m.OfWs? && CanRunMember(m, run) && FaultFreeMember(m, plan, run)
    ensures FaultFreeMember(m, NoPlan, run)
    decreases |run|
  {
    if run != [] {
      NoPlanNeeded(DoMember(m, run[0]), plan, run[1..]);
    }
  }

  lemma TcpEnds(s: T.Tcp, plan: Plan, run: seq<PartyStep>)
    requires T.TcpInit(s) && CanRunMember(OfTcp(s), run) && FaultFreeMember(OfTcp(s), plan, run)
    ensures |run| <= Bound(OfTcp(s), plan)
    ensures RunMember(OfTcp(s), run).OfTcp?
    ensures Stuck(RunMember(OfTcp(s), run), plan) ==> Ends(OfTcp(s), plan, RunMember(OfTcp(s), run))
  {
    NoPlanNeeded(OfTcp(s), plan, run);
    TcpFaultFree(s, run);
    TcpRuns(s, run);
    Tcp.TotalCorrectness(s, Tcps(run));
    var t := T.RunTcp(s, Tcps(run));
    if Stuck(OfTcp(t), plan) {
      forall st: T.RelayStep | Tcp.FaultFree(st.act)
        ensures !T.CanDo(t, st)
      {
        assert FaultFree(OfTcp(t), plan, TcpStep(st));
      }
    }
  }

  lemma WsEnds(s: W.Ws, plan: Plan, run: seq<PartyStep>)
    requires W.WsInit(s) && PlanFits(OfWs(s), plan)
    requires CanRunMember(OfWs(s), run) && FaultFreeMember(OfWs(s), plan, run)
    ensures |run| <= Bound(OfWs(s), plan)
    ensures RunMember(OfWs(s), run).OfWs?
    ensures Stuck(RunMember(OfWs(s), run), plan) ==> Ends(OfWs(s), plan, RunMember(OfWs(s), run))
  {
    WsRuns(s, run);
    WsFaultFree(s, plan, run);
    Ws.WsTotalCorrectness(s, plan.x, plan.y, Wss(run));
    var t := W.RunWs(s, Wss(run));
    if Stuck(OfWs(t), plan) {
      forall st: W.RelayStep | Ws.FaultFreeStep(t, plan.x, plan.y, st)
        ensures !W.CanDo(t, st)
      {
        assert FaultFree(OfWs(t), plan, WsStep(st));
      }
    }
  }

  lemma HttpEnds(s: H.Http, plan: Plan, run: seq<PartyStep>)
    requires H.HttpInit(s) && CanRunMember(OfHttp(s), run) && FaultFreeMember(OfHttp(s), plan, run)
    ensures |run| <= Bound(OfHttp(s), plan)
    ensures RunMember(OfHttp(s), run).OfHttp?
    ensures Stuck(RunMember(OfHttp(s), run), plan) ==> Ends(OfHttp(s), plan, RunMember(OfHttp(s), run))
  {
    NoPlanNeeded(OfHttp(s), plan, run);
    HttpRuns(s, run);
    HttpFaultFree(s, run);
    Http.StreamedTotalCorrectness(s, Https(run));
    var t := H.RunHttp(s, Https(run));
    if Stuck(OfHttp(t), plan) {
      forall st: H.HttpStep | Http.FaultFree(t, st)
        ensures !H.CanHttp(t, st)
      {
        assert FaultFree(OfHttp(t), plan, HttpStep(st));
      }
    }
  }

  lemma {:induction false} KindKept(m: Member, run: seq<PartyStep>)
    requires CanRunMember(m, run)
    ensures var t := RunMember(m, run); t.OfTcp? == m.OfTcp? && t.OfWs? == m.OfWs?
    decreases |run|
  {
    if run != [] {
      KindKept(DoMember(m, run[0]), run[1..]);
    }
  }

  lemma MemberEnds(m: Member, plan: Plan, run: seq<PartyStep>)
    requires InitMember(m) && PlanFits(m, plan) && CanRunMember(m, run) && FaultFreeMember(m, plan, run)
    ensures PlanFits(RunMember(m, run), plan) && |run| <= Bound(m, plan)
    ensures Stuck(RunMember(m, run), plan) ==> Ends(m, plan, RunMember(m, run))
  {
    KindKept(m, run);
    match m
    case OfTcp(s) => TcpEnds(s, plan, run);
    case OfWs(s) => WsEnds(s, plan, run);
    case OfHttp(s) => HttpEnds(s, plan, run);
  }

  // The link.

  predicate PlansFit(f: Mixed, plans: map<Id, Plan>)
    requires Keyed(f)
  {
    forall id <- f.parties :: id in plans && PlanFits(MemberOf(f, id), plans[id])
  }

  /** A step of a session's users, or of the link for one session, without a fault. */
  predicate FaultFreeStep(f: Mixed, plans: map<Id, Plan>, st: MixedStep)
    requires Keyed(f)
  {
    && st.OfParty? && st.id in f.parties && st.id in plans
    && PlanFits(MemberOf(f, st.id), plans[st.id])
    && FaultFree(MemberOf(f, st.id), plans[st.id], st.step)
  }

  predicate FaultFreeRun(f: Mixed, plans: map<Id, Plan>, run: seq<MixedStep>)
    requires Keyed(f) && CanRunMixed(f, run)
    decreases |run|
  {
    run == [] || (FaultFreeStep(f, plans, run[0]) && FaultFreeRun(DoMixed(f, run[0]), plans, run[1..]))
  }

  lemma {:induction false} MemberFaultFree(f: Mixed, plans: map<Id, Plan>, run: seq<MixedStep>, id: Id)
    requires Keyed(f) && CanRunMixed(f, run) && FaultFreeRun(f, plans, run)
    requires id in f.parties && id in plans && PlanFits(MemberOf(f, id), plans[id])
    requires CanRunMember(MemberOf(f, id), MemberRun(f, run, id))
    ensures FaultFreeMember(MemberOf(f, id), plans[id], MemberRun(f, run, id))
    decreases |run|
  {
    if run != [] {
      var m, g := MemberOf(f, id), DoMixed(f, run[0]);
      var own := MemberRun(g, run[1..], id);
      StepMember(f, run[0], id);
      SharedSessionsRunAlone(g, run[1..], id);
      if run[0].id == id {
        OneMember(m, run[0].step);
        KindKept(m, [run[0].step]);
        MemberFaultFree(g, plans, run[1..], id);
        assert MemberRun(f, run, id) == [run[0].step] + own;
        assert MemberRun(f, run, id)[1..] == own;
      } else {
        MemberFaultFree(g, plans, run[1..], id);
        assert MemberRun(f, run, id) == own;
      }
    }
  }

  // The steps of a run are the steps of its sessions.

  predicate Within(ids: seq<Id>, keys: set<Id>) { forall i :: 0 <= i < |ids| ==> ids[i] in keys }

  function SumBounds(f: Mixed, plans: map<Id, Plan>, ids: seq<Id>): nat
    requires Keyed(f) && PlansFit(f, plans) && Within(ids, f.parties.Keys)
  {
    if ids == [] then 0 else Bound(MemberOf(f, ids[0]), plans[ids[0]]) + SumBounds(f, plans, ids[1..])
  }

  function SumSteps(f: Mixed, run: seq<MixedStep>, ids: seq<Id>): nat
    requires Keyed(f) && CanRunMixed(f, run) && Within(ids, f.parties.Keys)
  {
    if ids == [] then 0 else |MemberRun(f, run, ids[0])| + SumSteps(f, run, ids[1..])
  }

  lemma {:induction false} StepCounts(f: Mixed, run: seq<MixedStep>, ids: seq<Id>)
    requires Keyed(f) && CanRunMixed(f, run) && Within(ids, f.parties.Keys) && run != [] && run[0].OfParty?
    ensures SumSteps(f, run, ids) >=
      SumSteps(DoMixed(f, run[0]), run[1..], ids) + (if run[0].id in ids then 1 else 0)
  {
    if ids != [] {
      StepCounts(f, run, ids[1..]);
    }
  }

  lemma {:induction false} RunCounts(f: Mixed, plans: map<Id, Plan>, run: seq<MixedStep>, ids: seq<Id>)
    requires Keyed(f) && CanRunMixed(f, run) && FaultFreeRun(f, plans, run)
    requires Within(ids, f.parties.Keys) && forall id <- f.parties :: id in ids
    ensures |run| <= SumSteps(f, run, ids)
    decreases |run|
  {
    if run != [] {
      StepCounts(f, run, ids);
      RunCounts(DoMixed(f, run[0]), plans, run[1..], ids);
    }
  }

  lemma OwnRun(f: Mixed, plans: map<Id, Plan>, run: seq<MixedStep>, id: Id)
    requires InitMixed(f) && PlansFit(f, plans) && CanRunMixed(f, run) && FaultFreeRun(f, plans, run) && id in f.parties
    ensures |MemberRun(f, run, id)| <= Bound(MemberOf(f, id), plans[id])
    ensures PlanFits(MemberOf(RunMixed(f, run), id), plans[id])
    ensures Stuck(MemberOf(RunMixed(f, run), id), plans[id]) ==>
      Ends(MemberOf(f, id), plans[id], MemberOf(RunMixed(f, run), id))
  {
    assert InitMember(MemberOf(f, id)) && PlanFits(MemberOf(f, id), plans[id]);
    SharedSessionsRunAlone(f, run, id);
    MemberFaultFree(f, plans, run, id);
    MemberEnds(MemberOf(f, id), plans[id], MemberRun(f, run, id));
  }

  lemma OwnBound(f: Mixed, plans: map<Id, Plan>, run: seq<MixedStep>, id: Id)
    requires InitMixed(f) && PlansFit(f, plans) && CanRunMixed(f, run) && FaultFreeRun(f, plans, run) && id in f.parties
    ensures |MemberRun(f, run, id)| <= Bound(MemberOf(f, id), plans[id])
  {
    OwnRun(f, plans, run, id);
  }

  lemma {:induction false} StepsBounded(f: Mixed, plans: map<Id, Plan>, run: seq<MixedStep>, ids: seq<Id>)
    requires InitMixed(f) && PlansFit(f, plans) && CanRunMixed(f, run) && FaultFreeRun(f, plans, run)
    requires Within(ids, f.parties.Keys)
    ensures SumSteps(f, run, ids) <= SumBounds(f, plans, ids)
  {
    if ids != [] {
      OwnBound(f, plans, run, ids[0]);
      StepsBounded(f, plans, run, ids[1..]);
    }
  }

  // Where the link is stuck, every session is.

  /** No fault has closed the link, and every frame on it belongs to a session. */
  predicate Open(m: Link) {
    && !m.a.rdStopped && !m.b.rdStopped && m.a.locs.Keys == m.b.locs.Keys
    && Known(m.ab, m.a.locs.Keys) && Known(m.ba, m.a.locs.Keys)
    && (m.a.hand.InHand? ==> m.a.hand.tagged.id in m.a.locs)
    && (m.b.hand.InHand? ==> m.b.hand.tagged.id in m.a.locs)
  }

  predicate Known(q: seq<Tagged>, ids: set<Id>) { forall i :: 0 <= i < |q| ==> q[i].id in ids }

  lemma StaysOpen(m: Link, st: LinkStep)
    requires Open(m) && CanStepLink(m, st) && st.act.OfSession?
    ensures Open(DoLink(m, st))
  {
    LeftStaysOpen(if st.side.Left? then m else FlipLink(m), st.act);
  }

  lemma LeftStaysOpen(m: Link, act: LinkAct)
    requires Open(m) && CanLink(m, act) && act.OfSession?
    ensures Open(ApplyLink(m, act))
  {
  }

  lemma OneLifted(m: Link, id: Id, side: Side, act: Act)
    ensures Lift(id, [Step(side, act)]) == [LinkStep(side, OfSession(id, act))]
    ensures CanRunLink(m, Lift(id, [Step(side, act)])) <==> CanStepLink(m, LinkStep(side, OfSession(id, act)))
    ensures CanStepLink(m, LinkStep(side, OfSession(id, act))) ==>
      RunLink(m, Lift(id, [Step(side, act)])) == DoLink(m, LinkStep(side, OfSession(id, act)))
  {
    assert [Step(side, act)][1..] == [];
    assert [LinkStep(side, OfSession(id, act))][1..] == [];
  }

  lemma MixedStaysOpen(f: Mixed, st: MixedStep)
    requires Keyed(f) && CanMixed(f, st) && st.OfParty? && Open(f.link)
    ensures Open(DoMixed(f, st).link)
  {
    var steps := Trace(MemberOf(f, st.id), st.step);
    MemberTraces(MemberOf(f, st.id), st.step);
    if steps != [] {
      LiftStaysOpen(f.link, st.id, steps);
    }
  }

  lemma LiftStaysOpen(m: Link, id: Id, steps: seq<Step>)
    requires Open(m) && |steps| == 1 && CanRunLink(m, Lift(id, steps))
    ensures Open(RunLink(m, Lift(id, steps)))
  {
    assert steps == [Step(steps[0].side, steps[0].act)];
    OneLifted(m, id, steps[0].side, steps[0].act);
    StaysOpen(m, LinkStep(steps[0].side, OfSession(id, steps[0].act)));
  }

  lemma {:induction false} RunStaysOpen(f: Mixed, plans: map<Id, Plan>, run: seq<MixedStep>)
    requires Keyed(f) && CanRunMixed(f, run) && FaultFreeRun(f, plans, run) && Open(f.link)
    ensures Open(RunMixed(f, run).link)
    decreases |run|
  {
    if run != [] {
      MixedStaysOpen(f, run[0]);
      RunStaysOpen(DoMixed(f, run[0]), plans, run[1..]);
    }
  }

  ghost predicate LinkStuck(f: Mixed, plans: map<Id, Plan>)
    requires Keyed(f)
  {
    forall st: MixedStep :: FaultFreeStep(f, plans, st) ==> !CanMixed(f, st)
  }

  predicate ReaderIdle(e: LinkEnd, wire: seq<Tagged>) { e.hand.EmptyHand? && wire == [] }

  predicate Idle(m: Link) { ReaderIdle(m.a, m.ba) && ReaderIdle(m.b, m.ab) }

  /** One reader's next act, and the session it is for. */
  function ReaderAct(e: LinkEnd): Act { if e.hand.InHand? then Deliver(false) else LookUp(Accept) }

  function ReaderId(e: LinkEnd, wire: seq<Tagged>): Id
    requires !ReaderIdle(e, wire)
  {
    if e.hand.InHand? then e.hand.tagged.id else wire[0].id
  }

  lemma ReaderMoves(m: Link)
    requires Open(m) && !ReaderIdle(m.a, m.ba)
    ensures var id := ReaderId(m.a, m.ba);
      && id in m.a.locs && CanLink(m, OfSession(id, ReaderAct(m.a)))
      && Enabled(Project(m, id), ReaderAct(m.a))
  {
    OwnStep(m, ReaderId(m.a, m.ba), ReaderAct(m.a));
  }

  /** A single act on the link, as a step of the session's users. */
  lemma ActInMixed(f: Mixed, plans: map<Id, Plan>, side: Side, id: Id, act: Act)
    requires Keyed(f) && id in f.parties && id in plans && PlanFits(MemberOf(f, id), plans[id])
    requires (act.LookUp? && act.verdict.Accept?) || act.Deliver?
    requires CanStepLink(f.link, LinkStep(side, OfSession(id, act))) && CanStep(Project(f.link, id), Step(side, act))
    ensures var st := OfParty(id, LinkStepOf(f.parties[id], side, act));
      CanMixed(f, st) && FaultFreeStep(f, plans, st)
  {
    var ch, p := Project(f.link, id), f.parties[id];
    LinkStepMember(ch, p, side, act);
    assert Trace(Join(ch, p), LinkStepOf(p, side, act)) == [Step(side, act)];
    OneLifted(f.link, id, side, act);
  }

  lemma StuckIsIdle(f: Mixed, plans: map<Id, Plan>)
    requires Keyed(f) && Open(f.link) && LinkStuck(f, plans)
    requires forall id <- f.parties :: id in plans && PlanFits(MemberOf(f, id), plans[id])
    ensures Idle(f.link)
  {
    var m := f.link;
    if !ReaderIdle(m.a, m.ba) {
      ReaderMoves(m);
      ActInMixed(f, plans, Left, ReaderId(m.a, m.ba), ReaderAct(m.a));
    }
    if !ReaderIdle(m.b, m.ab) {
      ReaderMoves(FlipLink(m));
      ActInMixed(f, plans, Right, ReaderId(m.b, m.ab), ReaderAct(m.b));
    }
  }

  /** With nothing for the readers to do, what a session can do alone it can do here. */
  lemma StepInMixed(f: Mixed, plan: Plan, id: Id, ps: PartyStep)
    requires Keyed(f) && id in f.parties && Idle(f.link)
    requires CanMember(MemberOf(f, id), ps) && PlanFits(MemberOf(f, id), plan) && FaultFree(MemberOf(f, id), plan, ps)
    ensures CanMixed(f, OfParty(id, ps))
  {
    var m := MemberOf(f, id);
    var steps := Trace(m, ps);
    MemberTraces(m, ps);
    if steps != [] {
      NoLinkFault(m, plan, ps);
      assert steps == [Step(steps[0].side, steps[0].act)] && steps[1..] == [];
      assert CanStep(ChannelOf(m), steps[0]);
      ActOnIdle(f.link, id, steps[0].side, steps[0].act);
      OneLifted(f.link, id, steps[0].side, steps[0].act);
    }
  }

  lemma NoLinkFault(m: Member, plan: Plan, ps: PartyStep)
    requires PlanFits(m, plan) && CanMember(m, ps) && FaultFree(m, plan, ps) && Trace(m, ps) != []
    ensures var act := Trace(m, ps)[0].act; !act.BreakWrites? && !act.StopReader?
  {
  }

  lemma ActOnIdle(m: Link, id: Id, side: Side, act: Act)
    requires id in m.a.locs && id in m.b.locs && Idle(m) && !act.BreakWrites? && !act.StopReader?
    requires CanStep(Project(m, id), Step(side, act))
    ensures CanStepLink(m, LinkStep(side, OfSession(id, act)))
  {
  }

  lemma SessionStuck(f: Mixed, plans: map<Id, Plan>, id: Id)
    requires Keyed(f) && Idle(f.link) && LinkStuck(f, plans)
    requires id in f.parties && id in plans && PlanFits(MemberOf(f, id), plans[id])
    ensures Stuck(MemberOf(f, id), plans[id])
  {
    forall ps: PartyStep | FaultFree(MemberOf(f, id), plans[id], ps)
      ensures !CanMember(MemberOf(f, id), ps)
    {
      if CanMember(MemberOf(f, id), ps) {
        StepInMixed(f, plans[id], id, ps);
      }
    }
  }

  lemma InitOpen(f: Mixed)
    requires InitMixed(f)
    ensures Open(f.link)
  {
  }

  /** Total correctness of a whole link: without faults, a run of any number of sessions
      of all kinds that share it is no longer than the sum of their bounds, and when
      nothing more can happen every one of them has ended as it would have alone. ids
      lists the sessions. */
  lemma SharedTotalCorrectness(f: Mixed, plans: map<Id, Plan>, run: seq<MixedStep>, ids: seq<Id>)
    requires InitMixed(f) && PlansFit(f, plans) && CanRunMixed(f, run) && FaultFreeRun(f, plans, run)
    requires Within(ids, f.parties.Keys) && forall id <- f.parties :: id in ids
    ensures |run| <= SumBounds(f, plans, ids)
    ensures var t := RunMixed(f, run);
      LinkStuck(t, plans) ==> Idle(t.link) && forall id <- f.parties :: Ends(MemberOf(f, id), plans[id], MemberOf(t, id))
  {
    RunCounts(f, plans, run, ids);
    StepsBounded(f, plans, run, ids);
    if LinkStuck(RunMixed(f, run), plans) {
      StuckEnds(f, plans, run);
    }
  }

  lemma StuckEnds(f: Mixed, plans: map<Id, Plan>, run: seq<MixedStep>)
    requires InitMixed(f) && PlansFit(f, plans) && CanRunMixed(f, run) && FaultFreeRun(f, plans, run)
    requires LinkStuck(RunMixed(f, run), plans)
    ensures var t := RunMixed(f, run);
      Idle(t.link) && forall id <- f.parties :: Ends(MemberOf(f, id), plans[id], MemberOf(t, id))
  {
    var t := RunMixed(f, run);
    InitOpen(f);
    RunStaysOpen(f, plans, run);
    forall id | id in f.parties
      ensures id in plans && PlanFits(MemberOf(t, id), plans[id])
    {
      OwnRun(f, plans, run, id);
    }
    StuckIsIdle(t, plans);
    forall id | id in f.parties
      ensures Ends(MemberOf(f, id), plans[id], MemberOf(t, id))
    {
      OwnRun(f, plans, run, id);
      SessionStuck(t, plans, id);
    }
  }
}
