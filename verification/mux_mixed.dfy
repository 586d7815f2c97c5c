/** A link whose sessions are of all kinds: relayed TCP connections, relayed WebSockets
    and streamed responses. Each runs as it would alone.
    internal/datatunnel/link.go, internal/datatunnel/relay.go, internal/connector/proxy.go */
module MuxMixed {
  import opened Frames
  import opened Channel
  import opened ChannelInvariants
  import opened Mux
  import T = TcpRelay
  import W = WsRelay
  import H = HttpStream
  import TcpTrace
  import WsTrace
  import HttpTrace
  import TcpSafety
  import WsSafety
  import HttpStreamSafety

  /** The two users of a session. */
  datatype Party =
    | TcpParty(ta: T.Relay, tb: T.Relay)
    | WsParty(wa: W.Relay, wb: W.Relay)
    | HttpParty(pump: H.Pump, serve: H.Serve)

  datatype PartyStep = TcpStep(t: T.RelayStep) | WsStep(w: W.RelayStep) | HttpStep(h: H.HttpStep)

  /** A session with its users, alone. */
  datatype Member = OfTcp(tcp: T.Tcp) | OfWs(ws: W.Ws) | OfHttp(http: H.Http)

  function Join(ch: Channel, p: Party): Member {
    match p
    case TcpParty(a, b) => OfTcp(T.Tcp(ch, a, b))
    case WsParty(a, b) => OfWs(W.Ws(ch, a, b))
    case HttpParty(pump, serve) => OfHttp(H.Http(ch, pump, serve))
  }

  function ChannelOf(m: Member): Channel {
    match m
    case OfTcp(s) => s.ch
    case OfWs(s) => s.ch
    case OfHttp(s) => s.ch
  }

  function PartyOf(m: Member): Party {
    match m
    case OfTcp(s) => TcpParty(s.a, s.b)
    case OfWs(s) => WsParty(s.a, s.b)
    case OfHttp(s) => HttpParty(s.pump, s.serve)
  }

  predicate CanMember(m: Member, ps: PartyStep) {
    match m
    case OfTcp(s) => ps.TcpStep? && T.CanDo(s, ps.t)
    case OfWs(s) => ps.WsStep? && W.CanDo(s, ps.w)
    case OfHttp(s) => ps.HttpStep? && H.CanHttp(s, ps.h)
  }

  function DoMember(m: Member, ps: PartyStep): Member
    requires CanMember(m, ps)
  {
    match m
    case OfTcp(s) => OfTcp(T.DoRelay(s, ps.t))
    case OfWs(s) => OfWs(W.DoRelay(s, ps.w))
    case OfHttp(s) => OfHttp(H.DoHttp(s, ps.h))
  }

  predicate CanRunMember(m: Member, run: seq<PartyStep>)
    decreases |run|
  {
    run == [] || (CanMember(m, run[0]) && CanRunMember(DoMember(m, run[0]), run[1..]))
  }

  function RunMember(m: Member, run: seq<PartyStep>): Member
    requires CanRunMember(m, run)
    decreases |run|
  {
    if run == [] then m else RunMember(DoMember(m, run[0]), run[1..])
  }

  /** The session operation a step performs, if any. */
  function Trace(m: Member, ps: PartyStep): seq<Step>
    requires CanMember(m, ps)
  {
    match m
    case OfTcp(s) => TcpTrace.TraceStep(s, ps.t)
    case OfWs(s) => WsTrace.TraceStep(s, ps.w)
    case OfHttp(s) => HttpTrace.TraceStep(s, ps.h)
  }

  lemma MemberTraces(m: Member, ps: PartyStep)
    requires CanMember(m, ps)
    ensures |Trace(m, ps)| <= 1
    ensures CanRun(ChannelOf(m), Trace(m, ps)) && Run(ChannelOf(m), Trace(m, ps)) == ChannelOf(DoMember(m, ps))
  {
    match m
    case OfTcp(s) => TcpTrace.StepTraces(s, ps.t);
    case OfWs(s) => WsTrace.StepTraces(s, ps.w);
    case OfHttp(s) => HttpTrace.StepTraces(s, ps.h);
  }

  /** A step of the link's own, for the users of one session. */
  function LinkStepOf(p: Party, side: Side, act: Act): PartyStep {
    match p
    case TcpParty(_, _) => TcpStep(T.RelayStep(side, T.OfLink(act)))
    case WsParty(_, _) => WsStep(W.RelayStep(side, W.OfLink(act)))
    case HttpParty(_, _) => HttpStep(H.OfLink(side, act))
  }

  lemma LinkStepMember(ch: Channel, p: Party, side: Side, act: Act)
    requires LinkMay(if side.Left? then ch.a else ch.b, act) && CanStep(ch, Step(side, act))
    ensures CanMember(Join(ch, p), LinkStepOf(p, side, act))
    ensures DoMember(Join(ch, p), LinkStepOf(p, side, act)) == Join(Do(ch, Step(side, act)), p)
  {
  }

  // The link.

  datatype Mixed = Mixed(link: Link, parties: map<Id, Party>)

  datatype MixedStep = OfParty(id: Id, step: PartyStep) | OfAll(side: Side, all: LinkAct)

  predicate Keyed(f: Mixed) {
    f.parties.Keys == f.link.a.locs.Keys && f.parties.Keys == f.link.b.locs.Keys
  }

  function MemberOf(f: Mixed, id: Id): Member
    requires Keyed(f) && id in f.parties
  {
    Join(Project(f.link, id), f.parties[id])
  }

  /** A session's steps as steps of the link. */
  function Lift(id: Id, steps: seq<Step>): seq<LinkStep> {
    if steps == [] then [] else [LinkStep(steps[0].side, OfSession(id, steps[0].act))] + Lift(id, steps[1..])
  }

  predicate CanMixed(f: Mixed, st: MixedStep)
    requires Keyed(f)
  {
    match st
    case OfParty(id, ps) =>
      id in f.parties && CanMember(MemberOf(f, id), ps) && CanRunLink(f.link, Lift(id, Trace(MemberOf(f, id), ps)))
    case OfAll(side, all) => !all.OfSession? && CanStepLink(f.link, LinkStep(side, all))
  }

  lemma {:induction false} LinkKeys(m: Link, run: seq<LinkStep>)
    requires CanRunLink(m, run)
    ensures RunLink(m, run).a.locs.Keys == m.a.locs.Keys && RunLink(m, run).b.locs.Keys == m.b.locs.Keys
    decreases |run|
  {
    if run != [] {
      LinkKeys(DoLink(m, run[0]), run[1..]);
    }
  }

  function DoMixed(f: Mixed, st: MixedStep): (g: Mixed)
    requires Keyed(f) && CanMixed(f, st)
    ensures Keyed(g) && g.parties.Keys == f.parties.Keys
  {
    match st
    case OfParty(id, ps) =>
      var steps := Lift(id, Trace(MemberOf(f, id), ps));
      LinkKeys(f.link, steps);
      Mixed(RunLink(f.link, steps), f.parties[id := PartyOf(DoMember(MemberOf(f, id), ps))])
    case OfAll(side, all) => f.(link := DoLink(f.link, LinkStep(side, all)))
  }

  predicate CanRunMixed(f: Mixed, run: seq<MixedStep>)
    requires Keyed(f)
    decreases |run|
  {
    run == [] || (CanMixed(f, run[0]) && CanRunMixed(DoMixed(f, run[0]), run[1..]))
  }

  function RunMixed(f: Mixed, run: seq<MixedStep>): (g: Mixed)
    requires Keyed(f) && CanRunMixed(f, run)
    ensures Keyed(g) && g.parties.Keys == f.parties.Keys
    decreases |run|
  {
    if run == [] then f else RunMixed(DoMixed(f, run[0]), run[1..])
  }

  // Every session runs as if it were alone.

  /** What a step on the link is to one session. */
  function MemberStep(f: Mixed, st: MixedStep, id: Id): seq<PartyStep>
    requires Keyed(f) && id in f.parties
  {
    match st
    case OfParty(i, ps) => if i == id then [ps] else []
    case OfAll(side, all) =>
      var steps := ProjectStep(f.link, LinkStep(side, all), id);
      if steps == [] then [] else [LinkStepOf(f.parties[id], side, steps[0].act)]
  }

  function MemberRun(f: Mixed, run: seq<MixedStep>, id: Id): seq<PartyStep>
    requires Keyed(f) && CanRunMixed(f, run) && id in f.parties
    decreases |run|
  {
    if run == [] then [] else MemberStep(f, run[0], id) + MemberRun(DoMixed(f, run[0]), run[1..], id)
  }

  lemma OneMember(m: Member, ps: PartyStep)
    requires CanMember(m, ps)
    ensures CanRunMember(m, [ps]) && RunMember(m, [ps]) == DoMember(m, ps)
  {
    assert [ps][1..] == [];
  }

  /** At most one step, lifted to the link and projected again. */
  lemma LiftedProject(m: Link, i: Id, steps: seq<Step>, id: Id)
    requires |steps| <= 1 && CanRunLink(m, Lift(i, steps))
    requires i in m.a.locs && i in m.b.locs && id in m.a.locs && id in m.b.locs
    ensures ProjectRun(m, Lift(i, steps), id) == if i == id then steps else []
  {
    if steps != [] {
      assert steps == [steps[0]] && steps[1..] == [];
      assert Lift(i, steps) == [LinkStep(steps[0].side, OfSession(i, steps[0].act))];
      assert Lift(i, steps)[1..] == [];
    }
  }

  lemma OwnMember(f: Mixed, id: Id, ps: PartyStep)
    requires Keyed(f) && CanMixed(f, OfParty(id, ps))
    ensures MemberOf(DoMixed(f, OfParty(id, ps)), id) == DoMember(MemberOf(f, id), ps)
  {
    var m := MemberOf(f, id);
    var steps := Trace(m, ps);
    MemberTraces(m, ps);
    LiftedProject(f.link, id, steps, id);
    MultiplexingRefinesIndependence(f.link, Lift(id, steps), id);
  }

  lemma OtherMember(f: Mixed, i: Id, ps: PartyStep, id: Id)
    requires Keyed(f) && CanMixed(f, OfParty(i, ps)) && id in f.parties && id != i
    ensures MemberOf(DoMixed(f, OfParty(i, ps)), id) == MemberOf(f, id)
  {
    var steps := Trace(MemberOf(f, i), ps);
    MemberTraces(MemberOf(f, i), ps);
    LiftedProject(f.link, i, steps, id);
    MultiplexingRefinesIndependence(f.link, Lift(i, steps), id);
  }

  lemma AllMembers(f: Mixed, side: Side, all: LinkAct, id: Id)
    requires Keyed(f) && CanMixed(f, OfAll(side, all)) && id in f.parties
    ensures var run := MemberStep(f, OfAll(side, all), id);
      CanRunMember(MemberOf(f, id), run) && MemberOf(DoMixed(f, OfAll(side, all)), id) == RunMember(MemberOf(f, id), run)
  {
    var st, ch := LinkStep(side, all), Project(f.link, id);
    StepRefines(f.link, st, id);
    var steps := ProjectStep(f.link, st, id);
    if steps != [] {
      assert steps == [Step(side, steps[0].act)] && steps[1..] == [];
      LinkStepMember(ch, f.parties[id], side, steps[0].act);
      OneMember(MemberOf(f, id), LinkStepOf(f.parties[id], side, steps[0].act));
    }
  }

  lemma StepMember(f: Mixed, st: MixedStep, id: Id)
    requires Keyed(f) && CanMixed(f, st) && id in f.parties
    ensures var run := MemberStep(f, st, id);
      CanRunMember(MemberOf(f, id), run) && MemberOf(DoMixed(f, st), id) == RunMember(MemberOf(f, id), run)
  {
    match st
    case OfParty(i, ps) =>
      if i == id {
        OwnMember(f, id, ps);
        OneMember(MemberOf(f, id), ps);
      } else {
        OtherMember(f, i, ps, id);
      }
    case OfAll(side, all) => AllMembers(f, side, all, id);
  }

  lemma {:induction false} MemberAppend(m: Member, x: seq<PartyStep>, y: seq<PartyStep>)
    requires CanRunMember(m, x) && CanRunMember(RunMember(m, x), y)
    ensures CanRunMember(m, x + y) && RunMember(m, x + y) == RunMember(RunMember(m, x), y)
    decreases |x|
  {
    if x == [] {
      assert x + y == y;
    } else {
      assert (x + y)[0] == x[0] && (x + y)[1..] == x[1..] + y;
      MemberAppend(DoMember(m, x[0]), x[1..], y);
    }
  }

  /** Every run of a link with sessions of all kinds and any faults, seen from one
      session, is a run of that session and its users alone. */
  lemma {:induction false} SharedSessionsRunAlone(f: Mixed, run: seq<MixedStep>, id: Id)
    requires Keyed(f) && CanRunMixed(f, run) && id in f.parties
    ensures var own := MemberRun(f, run, id);
      CanRunMember(MemberOf(f, id), own) && MemberOf(RunMixed(f, run), id) == RunMember(MemberOf(f, id), own)
    decreases |run|
  {
    if run != [] {
      StepMember(f, run[0], id);
      var g := DoMixed(f, run[0]);
      SharedSessionsRunAlone(g, run[1..], id);
      MemberAppend(MemberOf(f, id), MemberStep(f, run[0], id), MemberRun(g, run[1..], id));
    }
  }

  // What that gives.

  function Tcps(run: seq<PartyStep>): seq<T.RelayStep> {
    if run == [] then [] else (if run[0].TcpStep? then [run[0].t] else []) + Tcps(run[1..])
  }

  lemma {:induction false} TcpRuns(s: T.Tcp, run: seq<PartyStep>)
    requires CanRunMember(OfTcp(s), run)
    ensures T.CanRunTcp(s, Tcps(run)) && RunMember(OfTcp(s), run) == OfTcp(T.RunTcp(s, Tcps(run)))
    decreases |run|
  {
    if run != [] {
      TcpRuns(T.DoRelay(s, run[0].t), run[1..]);
      assert Tcps(run) == [run[0].t] + Tcps(run[1..]);
    }
  }

  function Wss(run: seq<PartyStep>): seq<W.RelayStep> {
    if run == [] then [] else (if run[0].WsStep? then [run[0].w] else []) + Wss(run[1..])
  }

  lemma {:induction false} WsRuns(s: W.Ws, run: seq<PartyStep>)
    requires CanRunMember(OfWs(s), run)
    ensures W.CanRunWs(s, Wss(run)) && RunMember(OfWs(s), run) == OfWs(W.RunWs(s, Wss(run)))
    decreases |run|
  {
    if run != [] {
      WsRuns(W.DoRelay(s, run[0].w), run[1..]);
      assert Wss(run) == [run[0].w] + Wss(run[1..]);
    }
  }

  function Https(run: seq<PartyStep>): seq<H.HttpStep> {
    if run == [] then [] else (if run[0].HttpStep? then [run[0].h] else []) + Https(run[1..])
  }

  lemma {:induction false} HttpRuns(s: H.Http, run: seq<PartyStep>)
    requires CanRunMember(OfHttp(s), run)
    ensures H.CanRunHttp(s, Https(run)) && RunMember(OfHttp(s), run) == OfHttp(H.RunHttp(s, Https(run)))
    decreases |run|
  {
    if run != [] {
      HttpRuns(H.DoHttp(s, run[0].h), run[1..]);
      assert Https(run) == [run[0].h] + Https(run[1..]);
    }
  }

  predicate InitMember(m: Member) {
    match m
    case OfTcp(s) => T.TcpInit(s)
    case OfWs(s) => W.WsInit(s)
    case OfHttp(s) => H.HttpInit(s)
  }

  predicate InitMixed(f: Mixed) {
    InitLink(f.link) && Keyed(f) && forall id <- f.parties :: InitMember(MemberOf(f, id))
  }

  /** The messages and the close of a's WebSocket, at b's. */
  predicate Relayed(a: W.Relay, b: W.Relay) {
    && b.lp.written <= a.rd.read
    && (b.lp.told.Full? ==>
          && b.lp.told.frame.Close?
          && a.lp.left == W.PeerClose(b.lp.told.frame.code, b.lp.told.frame.text)
          && b.lp.written == a.rd.read)
  }

  /** What the users of one session are promised, whatever happens. */
  predicate Kept(p: Party) {
    match p
    case TcpParty(a, b) =>
      a.lp.written <= b.rd.read && b.lp.written <= a.rd.read
    case WsParty(a, b) => Relayed(a, b) && Relayed(b, a)
    case HttpParty(pump, serve) =>
      && serve.written <= pump.read
      && (HttpStreamSafety.ReturnsNormally(serve) ==>
            serve.cause.ClientGone? || serve.cause.ClientFailed?
            || (pump.ended.EndOfBody? && pump.unread == [] && serve.written == pump.read))
  }

  lemma MemberKeeps(m: Member, run: seq<PartyStep>)
    requires InitMember(m) && CanRunMember(m, run)
    ensures Kept(PartyOf(RunMember(m, run)))
  {
    match m
    case OfTcp(s) => TcpKeeps(s, run);
    case OfWs(s) => WsKeeps(s, run);
    case OfHttp(s) => HttpKeeps(s, run);
  }

  lemma TcpKeeps(s: T.Tcp, run: seq<PartyStep>)
    requires T.TcpInit(s) && CanRunMember(OfTcp(s), run)
    ensures Kept(PartyOf(RunMember(OfTcp(s), run)))
  {
    TcpRuns(s, run);
    TcpSafety.PrefixSafety(s, Tcps(run));
  }

  lemma WsKeeps(s: W.Ws, run: seq<PartyStep>)
    requires W.WsInit(s) && CanRunMember(OfWs(s), run)
    ensures Kept(PartyOf(RunMember(OfWs(s), run)))
  {
    WsRuns(s, run);
    WsSafety.WsReached(s, Wss(run));
    var t := W.RunWs(s, Wss(run));
    RelayedOneWay(t);
    FlipInv(t.ch);
    RelayedOneWay(W.Turn(t));
  }

  lemma RelayedOneWay(t: W.Ws)
    requires WsSafety.WsInv(t)
    ensures Relayed(t.a, t.b)
  {
    WsSafety.InvMessages(t);
    if t.b.lp.told.Full? {
      WsSafety.InvFidelity(t);
    }
  }

  lemma HttpKeeps(s: H.Http, run: seq<PartyStep>)
    requires H.HttpInit(s) && CanRunMember(OfHttp(s), run)
    ensures Kept(PartyOf(RunMember(OfHttp(s), run)))
  {
    HttpRuns(s, run);
    HttpStreamSafety.ServedIsPrefix(s, Https(run));
    if HttpStreamSafety.ReturnsNormally(H.RunHttp(s, Https(run)).serve) {
      HttpStreamSafety.CleanEndIsWhole(s, Https(run));
    }
  }

  /** On a link that carries sessions of all kinds, every one keeps what it promises,
      whatever goes wrong with it, with the others, or with the link: prefixes of the
      bytes and messages, the close of the other WebSocket, no truncated response that
      ends cleanly. */
  lemma SharedLinkKeepsPromises(f: Mixed, run: seq<MixedStep>, id: Id)
    requires InitMixed(f) && CanRunMixed(f, run) && id in f.parties
    ensures Kept(RunMixed(f, run).parties[id])
  {
    SharedSessionsRunAlone(f, run, id);
    assert InitMember(MemberOf(f, id));
    MemberKeeps(MemberOf(f, id), MemberRun(f, run, id));
    PartyOfMember(RunMixed(f, run), id);
  }

  lemma PartyOfMember(f: Mixed, id: Id)
    requires Keyed(f) && id in f.parties
    ensures PartyOf(MemberOf(f, id)) == f.parties[id]
  {
  }
}
