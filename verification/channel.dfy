/** The send window of one session: its constants and what the window does to
    the session's queues. internal/datatunnel/session.go */
module Window {
  import opened Frames

  const SEND_WINDOW: nat := 32
  const RECV_SLACK: nat := 8
  const ACK_THRESHOLD: nat := SEND_WINDOW / 2
  const RECV_CAPACITY: nat := SEND_WINDOW + RECV_SLACK

  /** credit is the fill of the credit channel, recv the receive queue. */
  datatype Queues = Queues(credit: nat, recv: seq<Frame>, consumed: nat)

  const FULL_WINDOW := Queues(SEND_WINDOW, [], 0)

  function AddCredit(q: Queues, n: nat): Queues {
    q.(credit := if q.credit >= SEND_WINDOW then q.credit
                 else if q.credit + n <= SEND_WINDOW then q.credit + n else SEND_WINDOW)
  }

  /** The new queues and the window frame to write, if the batch is full. */
  datatype Ack = Ack(q: Queues, out: Slot)

  function Acked(q: Queues): Ack {
    if q.consumed + 1 >= ACK_THRESHOLD
    then Ack(q.(consumed := 0), Full(Frame.Window(q.consumed + 1)))
    else Ack(q.(consumed := q.consumed + 1), Empty)
  }
}

/** One session of one link, seen from both ends: two session objects, the two
    link readers, and the two directions of the wire, restricted to this session.
    A step is what one goroutine does between two points at which another
    goroutine may run. The users of the session (relay loops, pumps) are left
    open here: any interleaving of the session's operations is a run. */
module Channel {
  import opened Frames
  import opened Window

  /** Absent: not (yet) registered. Refused: the accepting end turned the open
      down. Live: in the link's map. Deleted: taken out of the map, done not yet
      closed. Done: done closed. */
  datatype Life = Absent | Refused | Live | Deleted | Done

  /** What one end knows of the session.
      hold: the data frame of a SendData that has its credit and has not written.
      busy: a data frame taken from recv and not acknowledged.
      sent, got: every queued frame written to the wire, taken from recv, so far.
      ctl: control frames this end has tried to write. */
  datatype Local = Local(q: Queues, life: Life, opener: bool, announced: bool,
                         hold: Slot, busy: bool,
                         sent: seq<Frame>, got: seq<Frame>, ctl: nat)

  /** What one end's link contributes.
      wrBroken: writes fail from now on. rdStopped: Run reads no more.
      hand: the frame for this session that dispatch has looked up and not
      delivered. */
  datatype Port = Port(wrBroken: bool, rdStopped: bool, hand: Slot)

  datatype End = End(loc: Local, port: Port)

  /** An end after an act, and the frame the act put on its wire, if any. */
  datatype Outcome = Outcome(end: End, out: Slot)

  datatype Channel = Channel(a: End, b: End, ab: seq<Frame>, ba: seq<Frame>)

  datatype Verdict = Accept | Refuse | Ignore

  datatype Act =
    | Register                      // Link.Open, addSession
    | AnnounceOpen(open: Frame)     // Link.Open, WriteFrame
    | TakeCredit(data: Frame)       // SendData, the select
    | WriteHeld                     // SendData, WriteFrame
    | TakeFrame                     // a receive from Recv()
    | AckData
    | SendControl(control: Frame)   // SendEOF, and the first half of Close...
    | RemoveFromMap                 // removeSession up to Unlock, or Link.Close
    | MarkDone
    | BreakWrites                   // the connection fails, or Link.Close closes it
    | StopReader                    // ReadMessage fails, Run leaves its loop
    | LookUp(verdict: Verdict)      // Run reads a frame; dispatch or onOpen
    | Deliver(preferDone: bool)     // dispatch, after the lookup

  datatype Side = Left | Right

  datatype Step = Step(side: Side, act: Act)

  function Flip(s: Channel): Channel {
    Channel(s.b, s.a, s.ba, s.ab)
  }

  function FreshLocal(opener: bool): Local {
    Local(FULL_WINDOW, Absent, opener, false, Empty, false, [], [], 0)
  }

  const OPEN_PORT := Port(false, false, Empty)

  predicate Init(s: Channel) {
    && s.ab == s.ba == []
    && s.a.port == s.b.port == OPEN_PORT
    && s.a.loc == FreshLocal(s.a.loc.opener)
    && s.b.loc == FreshLocal(!s.a.loc.opener)
  }

  /** Link.Open has returned, or the session has been accepted. */
  predicate Usable(l: Local) {
    if l.opener then l.announced else l.life.Live? || l.life.Deleted? || l.life.Done?
  }

  predicate CanAct(e: End, act: Act)
    requires !act.LookUp?
  {
    var l := e.loc;
    match act
    case Register => l.opener && l.life.Absent?
    case AnnounceOpen(open) => l.opener && !l.announced && !l.life.Absent? && open.Open?
    case TakeCredit(data) => Usable(l) && l.hold.Empty? && data.Data? && l.q.credit > 0
    case WriteHeld => l.hold.Full?
    case TakeFrame => Usable(l) && !l.busy && l.q.recv != []
    case AckData => l.busy
    case SendControl(control) => Usable(l) && control.Control()
    case RemoveFromMap => l.life.Live?
    case MarkDone => l.life.Deleted?
    case BreakWrites => true
    case StopReader => e.port.hand.Empty?
    case Deliver(preferDone) => e.port.hand.Full? && (preferDone ==> l.life.Done?)
  }

  /** A frame written by this end: lost, with an error, once writes are broken. */
  function Written(e: End, f: Frame): Outcome {
    if e.port.wrBroken then Outcome(e, Empty)
    else Outcome(e.(loc := e.loc.(sent := e.loc.sent + QueuedOf(Full(f)))), Full(f))
  }

  function Tried(e: End): End {
    e.(loc := e.loc.(ctl := e.loc.ctl + 1))
  }

  /** dispatch once it has found the session: credit, queue, or the overrun. */
  function Delivered(e: End, f: Frame, preferDone: bool): Outcome {
    var l := e.loc;
    if f.Window? then
      Outcome(e.(loc := l.(q := AddCredit(l.q, f.credits))), Empty)
    else if |l.q.recv| < RECV_CAPACITY && !preferDone then
      Outcome(e.(loc := l.(q := l.q.(recv := l.q.recv + [f]))), Empty)
    else if l.life.Done? then
      Outcome(e, Empty)
    else
      var w := Written(Tried(e), Frame.Error("flow control violation"));
      if l.life.Live? then w.(end := w.end.(loc := w.end.loc.(life := Deleted))) else w
  }

  /** The end after the act, and the frames the act put on the wire. */
  function Effect(e: End, act: Act): Outcome
    requires !act.LookUp? && CanAct(e, act)
  {
    var l := e.loc;
    match act
    case Register => Outcome(e.(loc := l.(life := Live)), Empty)
    case AnnounceOpen(open) =>
      if e.port.wrBroken then Outcome(e, Empty) else Outcome(e.(loc := l.(announced := true)), Full(open))
    case TakeCredit(data) =>
      Outcome(e.(loc := l.(q := l.q.(credit := l.q.credit - 1), hold := Full(data))), Empty)
    case WriteHeld =>
      Written(e.(loc := l.(hold := Empty)), l.hold.frame)
    case TakeFrame =>
      var f := l.q.recv[0];
      Outcome(e.(loc := l.(q := l.q.(recv := l.q.recv[1..]), got := l.got + [f], busy := f.Data?)), Empty)
    case AckData =>
      var ack := Acked(l.q);
      Outcome(e.(loc := l.(q := ack.q, busy := false)), if e.port.wrBroken then Empty else ack.out)
    case SendControl(control) => Written(Tried(e), control)
    case RemoveFromMap => Outcome(e.(loc := l.(life := Deleted)), Empty)
    case MarkDone => Outcome(e.(loc := l.(life := Done)), Empty)
    case BreakWrites => Outcome(e.(port := e.port.(wrBroken := true)), Empty)
    case StopReader => Outcome(e.(port := e.port.(rdStopped := true)), Empty)
    case Deliver(preferDone) =>
      Delivered(e.(port := e.port.(hand := Empty)), e.port.hand.frame, preferDone)
  }

  /** The reader takes a frame off the wire. An open goes to onOpen: accepted,
      refused with an error frame, or ignored; an open for an ID that is taken
      is refused. Any other frame is picked up if the session is in the map and
      dropped if it is not. */
  function LookUpEffect(e: End, f: Frame, verdict: Verdict): Outcome {
    var l := e.loc;
    if f.Open? then
      if l.life.Absent? && verdict.Accept? then Outcome(e.(loc := l.(life := Live)), Empty)
      else
        var e' := if l.life.Absent? then e.(loc := l.(life := Refused)) else e;
        if verdict.Ignore? then Outcome(e', Empty)
        else Written(Tried(e'), Frame.Error("session refused"))
    else if l.life.Live? then Outcome(e.(port := e.port.(hand := Full(f))), Empty)
    else Outcome(e, Empty)
  }

  predicate Enabled(s: Channel, act: Act) {
    if act.LookUp? then !s.a.port.rdStopped && s.a.port.hand.Empty? && s.ba != []
    else CanAct(s.a, act)
  }

  function Apply(s: Channel, act: Act): Channel
    requires Enabled(s, act)
  {
    if act.LookUp? then
      var o := LookUpEffect(s.a, s.ba[0], act.verdict);
      Channel(o.end, s.b, Push(s.ab, o.out), s.ba[1..])
    else
      var o := Effect(s.a, act);
      Channel(o.end, s.b, Push(s.ab, o.out), s.ba)
  }

  /** The session operation a step of a session's user performs, if any. */
  datatype Call = NoCall | Call(act: Act)

  /** What the link's own goroutines may do to a session that is in use.
      Whoever opens a session hands over a valid open frame; Link.Close closes the
      connection before it takes sessions out of the map. */
  predicate LinkMay(e: End, act: Act) {
    || act.Register? || (act.AnnounceOpen? && Sendable(act.open))
    || act.LookUp? || act.Deliver? || act.MarkDone?
    || act.BreakWrites? || act.StopReader?
    || (act.RemoveFromMap? && e.port.wrBroken)
  }

  predicate CanStep(s: Channel, st: Step) {
    Enabled(if st.side.Left? then s else Flip(s), st.act)
  }

  function Do(s: Channel, st: Step): Channel
    requires CanStep(s, st)
  {
    if st.side.Left? then Apply(s, st.act) else Flip(Apply(Flip(s), st.act))
  }

  predicate CanRun(s: Channel, run: seq<Step>)
    decreases |run|
  {
    run == [] || (CanStep(s, run[0]) && CanRun(Do(s, run[0]), run[1..]))
  }

  function Run(s: Channel, run: seq<Step>): Channel
    requires CanRun(s, run)
    decreases |run|
  {
    if run == [] then s else Run(Do(s, run[0]), run[1..])
  }
}
