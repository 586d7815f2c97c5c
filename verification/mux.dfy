/** A link with any number of sessions: one wire per direction carries the frames
    of all of them, one reader per end dispatches them, and a connection that
    breaks breaks for all. internal/datatunnel/link.go */
module Mux {
  import opened Frames
  import opened Window
  import opened Channel
  import opened ChannelInvariants
  import opened FlowControl

  type Id = string

  datatype Tagged = Tagged(id: Id, frame: Frame)

  datatype Hand = EmptyHand | InHand(tagged: Tagged)

  /** locs: the sessions of this end, by ID. hand: the frame dispatch is about. */
  datatype LinkEnd = LinkEnd(locs: map<Id, Local>, wrBroken: bool, rdStopped: bool, hand: Hand)

  datatype Link = Link(a: LinkEnd, b: LinkEnd, ab: seq<Tagged>, ba: seq<Tagged>)

  datatype LinkAct =
    | OfSession(id: Id, act: Act)
    | BreakAll      // the connection fails, or Link.Close closes it
    | StopAll       // ReadMessage fails, Run leaves its loop
    | RemoveAll     // Link.Close swaps the map, after closing the connection

  datatype LinkStep = LinkStep(side: Side, act: LinkAct)

  function FlipLink(m: Link): Link { Link(m.b, m.a, m.ba, m.ab) }

  predicate InitLink(m: Link) {
    && m.ab == m.ba == []
    && m.a.locs.Keys == m.b.locs.Keys
    && m.a == LinkEnd(m.a.locs, false, false, EmptyHand)
    && m.b == LinkEnd(m.b.locs, false, false, EmptyHand)
    && (forall id <- m.a.locs ::
          && m.a.locs[id] == FreshLocal(m.a.locs[id].opener)
          && m.b.locs[id] == FreshLocal(!m.a.locs[id].opener))
  }

  // One session of the link.

  function HandOf(h: Hand, id: Id): Slot {
    if h.InHand? && h.tagged.id == id then Full(h.tagged.frame) else Empty
  }

  function EndOf(e: LinkEnd, id: Id): End
    requires id in e.locs
  {
    End(e.locs[id], Port(e.wrBroken, e.rdStopped, HandOf(e.hand, id)))
  }

  /** The frames of one session. */
  function Only(q: seq<Tagged>, id: Id): seq<Frame> {
    if q == [] then [] else (if q[0].id == id then [q[0].frame] else []) + Only(q[1..], id)
  }

  /** The link as one of its sessions sees it. */
  function Project(m: Link, id: Id): Channel
    requires id in m.a.locs && id in m.b.locs
  {
    Channel(EndOf(m.a, id), EndOf(m.b, id), Only(m.ab, id), Only(m.ba, id))
  }

  // Steps of the link.

  predicate CanLink(m: Link, act: LinkAct) {
    match act
    case OfSession(id, a) =>
      && id in m.a.locs && !a.BreakWrites? && !a.StopReader?
      && (if a.LookUp? then !m.a.rdStopped && m.a.hand.EmptyHand? && m.ba != [] && m.ba[0].id == id
          else CanAct(EndOf(m.a, id), a))
    case BreakAll => true
    case StopAll => m.a.hand.EmptyHand?
    case RemoveAll => m.a.wrBroken
  }

  function Store(e: LinkEnd, id: Id, s: End): LinkEnd {
    e.(locs := e.locs[id := s.loc],
       hand := if s.port.hand.Full? then InHand(Tagged(id, s.port.hand.frame))
               else if HandOf(e.hand, id).Full? then EmptyHand else e.hand)
  }

  function Tag(id: Id, f: Slot): seq<Tagged> {
    if f.Full? then [Tagged(id, f.frame)] else []
  }

  function Removed(l: Local): Local {
    if l.life.Live? then l.(life := Deleted) else l
  }

  function ApplyLink(m: Link, act: LinkAct): Link
    requires CanLink(m, act)
  {
    match act
    case OfSession(id, a) =>
      var o := if a.LookUp? then LookUpEffect(EndOf(m.a, id), m.ba[0].frame, a.verdict)
               else Effect(EndOf(m.a, id), a);
      Link(Store(m.a, id, o.end), m.b, m.ab + Tag(id, o.out), if a.LookUp? then m.ba[1..] else m.ba)
    case BreakAll => m.(a := m.a.(wrBroken := true))
    case StopAll => m.(a := m.a.(rdStopped := true))
    case RemoveAll => m.(a := m.a.(locs := map id <- m.a.locs :: Removed(m.a.locs[id])))
  }

  predicate CanStepLink(m: Link, st: LinkStep) {
    CanLink(if st.side.Left? then m else FlipLink(m), st.act)
  }

  function DoLink(m: Link, st: LinkStep): Link
    requires CanStepLink(m, st)
  {
    if st.side.Left? then ApplyLink(m, st.act) else FlipLink(ApplyLink(FlipLink(m), st.act))
  }

  predicate CanRunLink(m: Link, run: seq<LinkStep>)
    decreases |run|
  {
    run == [] || (CanStepLink(m, run[0]) && CanRunLink(DoLink(m, run[0]), run[1..]))
  }

  function RunLink(m: Link, run: seq<LinkStep>): Link
    requires CanRunLink(m, run)
    decreases |run|
  {
    if run == [] then m else RunLink(DoLink(m, run[0]), run[1..])
  }

  /** What a step of the link is to one session: a step of it, or nothing. */
  function ProjectStep(m: Link, st: LinkStep, id: Id): seq<Step>
    requires id in m.a.locs && id in m.b.locs
  {
    match st.act
    case OfSession(i, a) => if i == id then [Step(st.side, a)] else []
    case BreakAll => [Step(st.side, BreakWrites)]
    case StopAll => [Step(st.side, StopReader)]
    case RemoveAll =>
      if (if st.side.Left? then m.a else m.b).locs[id].life.Live? then [Step(st.side, RemoveFromMap)] else []
  }

  function ProjectRun(m: Link, run: seq<LinkStep>, id: Id): seq<Step>
    requires CanRunLink(m, run) && id in m.a.locs && id in m.b.locs
    decreases |run|
  {
    if run == [] then []
    else ProjectStep(m, run[0], id) + ProjectRun(DoLink(m, run[0]), run[1..], id)
  }

  // Multiplexing refines independence.

  lemma {:induction false} OnlyPush(q: seq<Tagged>, i: Id, f: Slot, id: Id)
    ensures Only(q + Tag(i, f), id) == (if i == id then Push(Only(q, id), f) else Only(q, id))
  {
    if q == [] {
      assert q + Tag(i, f) == Tag(i, f);
    } else {
      assert (q + Tag(i, f))[0] == q[0] && (q + Tag(i, f))[1..] == q[1..] + Tag(i, f);
      OnlyPush(q[1..], i, f, id);
      var own := if q[0].id == id then [q[0].frame] else [];
      assert Only(q + Tag(i, f), id) == own + Only(q[1..] + Tag(i, f), id);
    }
  }

  /** An act of session i is that act of session i. */
  lemma OwnStep(m: Link, i: Id, act: Act)
    requires CanLink(m, OfSession(i, act)) && i in m.b.locs
    ensures Enabled(Project(m, i), act)
    ensures Project(ApplyLink(m, OfSession(i, act)), i) == Apply(Project(m, i), act)
  {
    var o := if act.LookUp? then LookUpEffect(EndOf(m.a, i), m.ba[0].frame, act.verdict)
             else Effect(EndOf(m.a, i), act);
    OnlyPush(m.ab, i, o.out, i);
    assert o.end.port.wrBroken == m.a.wrBroken && o.end.port.rdStopped == m.a.rdStopped;
  }

  /** An act of session i is nothing to any other session. */
  lemma OthersStep(m: Link, i: Id, act: Act, id: Id)
    requires CanLink(m, OfSession(i, act)) && id in m.a.locs && id in m.b.locs && id != i
    ensures Project(ApplyLink(m, OfSession(i, act)), id) == Project(m, id)
  {
    var o := if act.LookUp? then LookUpEffect(EndOf(m.a, i), m.ba[0].frame, act.verdict)
             else Effect(EndOf(m.a, i), act);
    OnlyPush(m.ab, i, o.out, id);
  }

  lemma GlobalStep(m: Link, act: LinkAct, id: Id)
    requires CanLink(m, act) && !act.OfSession? && id in m.a.locs && id in m.b.locs
    ensures var run := ProjectStep(m, LinkStep(Left, act), id);
      CanRun(Project(m, id), run) && Project(ApplyLink(m, act), id) == Run(Project(m, id), run)
  {
  }

  lemma LeftRefines(m: Link, act: LinkAct, id: Id)
    requires CanLink(m, act) && id in m.a.locs && id in m.b.locs
    ensures var run := ProjectStep(m, LinkStep(Left, act), id);
      CanRun(Project(m, id), run) && Project(ApplyLink(m, act), id) == Run(Project(m, id), run)
  {
    if act.OfSession? {
      if act.id == id {
        OwnStep(m, id, act.act);
      } else {
        OthersStep(m, act.id, act.act, id);
      }
    } else {
      GlobalStep(m, act, id);
    }
  }

  lemma StepRefines(m: Link, st: LinkStep, id: Id)
    requires CanStepLink(m, st) && id in m.a.locs && id in m.b.locs
    ensures id in DoLink(m, st).a.locs && id in DoLink(m, st).b.locs
    ensures var run := ProjectStep(m, st, id);
      CanRun(Project(m, id), run) && Project(DoLink(m, st), id) == Run(Project(m, id), run)
  {
    if st.side.Left? {
      LeftRefines(m, st.act, id);
    } else {
      LeftRefines(FlipLink(m), st.act, id);
      assert Project(FlipLink(m), id) == Flip(Project(m, id));
    }
  }

  /** Every run of a link, seen from any one of its sessions, is a run of that
      session alone. */
  lemma {:induction false} MultiplexingRefinesIndependence(m: Link, run: seq<LinkStep>, id: Id)
    requires CanRunLink(m, run) && id in m.a.locs && id in m.b.locs
    ensures var t, own := RunLink(m, run), ProjectRun(m, run, id);
      && id in t.a.locs && id in t.b.locs
      && CanRun(Project(m, id), own)
      && Project(t, id) == Run(Project(m, id), own)
    decreases |run|
  {
    if run != [] {
      StepRefines(m, run[0], id);
      var m' := DoLink(m, run[0]);
      MultiplexingRefinesIndependence(m', run[1..], id);
      RunAppend(Project(m, id), ProjectStep(m, run[0], id), ProjectRun(m', run[1..], id));
    }
  }

  /** So what every session keeps alone it keeps on a shared link: here its credits
      and the order of its frames. */
  lemma SharedLinkKeepsSessions(m: Link, run: seq<LinkStep>, id: Id)
    requires InitLink(m) && CanRunLink(m, run) && id in m.a.locs
    ensures var t := RunLink(m, run);
      && id in t.a.locs && id in t.b.locs
      && (var c := Project(t, id);
          && Credits(c) <= SEND_WINDOW
          && (Healthy(c) ==> Credits(c) == SEND_WINDOW)
          && c.b.loc.got + c.b.loc.q.recv <= c.a.loc.sent
          && (c.b.loc.ctl <= RECV_SLACK ==> !Overrun(c)))
  {
    MultiplexingRefinesIndependence(m, run, id);
    var own := ProjectRun(m, run, id);
    assert Init(Project(m, id));
    CreditConservation(Project(m, id), own);
    FifoDelivery(Project(m, id), own);
    if Project(RunLink(m, run), id).b.loc.ctl <= RECV_SLACK {
      NoOverrun(Project(m, id), own);
    }
  }

  // No session holds up another.

  /** Dispatch waits for no session: as long as the reader runs, a frame in hand can
      be delivered and a frame on the wire can be taken, whatever state any
      session is in. */
  lemma DispatchNeverWaits(m: Link)
    requires !m.a.rdStopped && (m.a.hand.InHand? || m.ba != [])
    requires m.a.hand.InHand? ==> m.a.hand.tagged.id in m.a.locs
    requires m.ba != [] ==> m.ba[0].id in m.a.locs
    ensures var id := if m.a.hand.InHand? then m.a.hand.tagged.id else m.ba[0].id;
      CanLink(m, OfSession(id, if m.a.hand.InHand? then Deliver(false) else LookUp(Accept)))
  {
  }

  /** Nor does any act of one session depend on the state of another: put session i,
      at either end, in whatever state you like, stalled or not, and session j
      can do exactly what it could, to the same effect on itself and the wires. */
  lemma StalledSessionDisablesNothing(m: Link, i: Id, x: Local, y: Local, j: Id, act: Act)
    requires i in m.a.locs && i in m.b.locs && i != j
    ensures var n := m.(a := m.a.(locs := m.a.locs[i := x]), b := m.b.(locs := m.b.locs[i := y]));
      && CanLink(m, OfSession(j, act)) == CanLink(n, OfSession(j, act))
      && (CanLink(m, OfSession(j, act)) ==>
            var m', n' := ApplyLink(m, OfSession(j, act)), ApplyLink(n, OfSession(j, act));
            m'.a.locs[j] == n'.a.locs[j] && m'.ab == n'.ab && m'.ba == n'.ba && m'.a.hand == n'.a.hand)
  {
  }
}
