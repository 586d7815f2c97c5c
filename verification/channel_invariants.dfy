/** What every run of a session keeps, whoever uses it: credit conservation,
    bounded queues, FIFO order, and open before everything else. Each predicate
    speaks of the direction from end a to end b; Flip gives the other one. */
module ChannelInvariants {
  import opened Frames
  import opened Window
  import opened Channel

  predicate Starting(l: Life) { l.Absent? || l.Live? }

  predicate Over(l: Life) { l.Deleted? || l.Done? }

  /** The credits of the direction a to b, wherever they are: in a's channel, held
      by a SendData, on data frames under way or queued or being processed at b,
      in b's batch, and on window frames under way back to a. */
  function Credits(s: Channel): nat {
    s.a.loc.q.credit + DataOf(s.a.loc.hold)
    + DataCount(s.ab) + DataOf(s.b.port.hand) + DataCount(s.b.loc.q.recv)
    + (if s.b.loc.busy then 1 else 0) + s.b.loc.q.consumed
    + CreditSum(s.ba) + CreditOf(s.a.port.hand)
  }

  /** Both ends are registered, or still to be, and both connections accept writes. */
  predicate Healthy(s: Channel) {
    && Starting(s.a.loc.life) && Starting(s.b.loc.life)
    && !s.a.port.wrBroken && !s.b.port.wrBroken
  }

  predicate Conserved(s: Channel) {
    && Credits(s) <= SEND_WINDOW
    && (Healthy(s) ==> Credits(s) == SEND_WINDOW)
  }

  /** Control frames of a on their way to b's consumer. */
  function Controls(s: Channel): nat {
    ControlCount(s.ab) + ControlOf(s.b.port.hand) + ControlCount(s.b.loc.q.recv)
  }

  predicate FullBatch(f: Frame) { f.Window? ==> f.credits == ACK_THRESHOLD }

  predicate Shaped(s: Channel) {
    && s.b.loc.q.consumed < ACK_THRESHOLD
    && (forall i :: 0 <= i < |s.ba| ==> FullBatch(s.ba[i]))
    && (s.a.port.hand.Full? ==> FullBatch(s.a.port.hand.frame) && !s.a.port.hand.frame.Open?)
    && (forall i :: 0 <= i < |s.b.loc.q.recv| ==> s.b.loc.q.recv[i].Queued())
    && (s.a.loc.hold.Full? ==> s.a.loc.hold.frame.Data?)
  }

  predicate Bounded(s: Channel) { Controls(s) <= s.a.loc.ctl }

  /** What b has been given so far, in order. */
  function Given(s: Channel): seq<Frame> {
    s.b.loc.got + s.b.loc.q.recv + QueuedOf(s.b.port.hand)
  }

  predicate InOrder(s: Channel) {
    if Starting(s.b.loc.life) then Given(s) + QueuedOnly(s.ab) == s.a.loc.sent
    else Given(s) <= s.a.loc.sent
  }

  predicate Untouched(e: End) {
    && e.loc.q == FULL_WINDOW && e.loc.hold.Empty? && !e.loc.busy
    && e.loc.sent == e.loc.got == [] && e.loc.ctl == 0 && e.port.hand.Empty?
  }

  predicate Opening(s: Channel) {
    var a, b := s.a.loc, s.b.loc;
    && (a.life.Absent? ==> Untouched(s.a) && s.ab == [] && !a.announced)
    && (a.life.Refused? ==> !a.opener && a.q == FULL_WINDOW && a.hold.Empty? && !a.busy && a.got == [] && s.a.port.hand.Empty?)
    && a.opener == !b.opener
    && (a.opener && !a.announced ==> Untouched(s.a) && s.ab == [] && b.life.Absent?)
    && (a.opener && a.announced && b.life.Absent? ==> s.ab != [] && s.ab[0].Open? && NoOpen(s.ab[1..]))
    && (a.opener && !b.life.Absent? ==> a.announced && NoOpen(s.ab))
    && (!a.opener ==> !a.announced && NoOpen(s.ab))
  }

  predicate Inv(s: Channel) {
    && Opening(s) && Opening(Flip(s))
    && Shaped(s) && Shaped(Flip(s))
    && Conserved(s) && Conserved(Flip(s))
    && Bounded(s) && Bounded(Flip(s))
    && InOrder(s) && InOrder(Flip(s))
  }

  lemma InitInv(s: Channel)
    requires Init(s)
    ensures Inv(s)
  {
  }

  /** The frame an act puts on the wire, if any. */
  function Out(s: Channel, act: Act): Slot
    requires Enabled(s, act)
  {
    if act.LookUp? then LookUpEffect(s.a, s.ba[0], act.verdict).out else Effect(s.a, act).out
  }

  predicate Framed(s: Channel) {
    Opening(s) && Opening(Flip(s)) && Shaped(s) && Shaped(Flip(s))
  }

  /** The reader has a frame for the queue, and the queue has room. */
  predicate Room(s: Channel, act: Act) {
    && act.Deliver? && s.a.port.hand.Full? && !s.a.port.hand.frame.Window?
    && |s.a.loc.q.recv| < RECV_CAPACITY && !act.preferDone
  }

  /** Delivery puts nothing on the wire, except when it ends the session. */
  lemma RoomIsSilent(s: Channel, act: Act)
    requires Enabled(s, act) && act.Deliver? && (Room(s, act) || s.a.port.hand.frame.Window?)
    ensures Out(s, act).Empty? && Apply(s, act).ab == s.ab && Apply(s, act).ba == s.ba
    ensures var l, l' := s.a.loc, Apply(s, act).a.loc;
      l' == l.(q := l'.q) && l'.q.consumed == l.q.consumed
    ensures Room(s, act) ==> Apply(s, act).a.loc.q == s.a.loc.q.(recv := s.a.loc.q.recv + [s.a.port.hand.frame])
  {
  }

  // Acts of end a seen in the direction a sends in (Sends) and in the direction
  // it receives from (Receives).

  lemma OpeningSendsLookUp(s: Channel, act: Act)
    requires Framed(s) && Enabled(s, act)
    requires act.LookUp?
    ensures Opening(Apply(s, act))
  {
  }

  lemma OpeningSendsDeliver(s: Channel, act: Act)
    requires Framed(s) && Enabled(s, act)
    requires act.Deliver?
    ensures Opening(Apply(s, act))
  {
    if Room(s, act) || s.a.port.hand.frame.Window? {
      RoomIsSilent(s, act);
    } else {
      OpeningSendsLost(s, act);
    }
  }

  lemma OpeningSendsLost(s: Channel, act: Act)
    requires Framed(s) && Enabled(s, act)
    requires act.Deliver? && !Room(s, act) && !s.a.port.hand.frame.Window?
    ensures Opening(Apply(s, act))
  {
  }

  lemma OpeningSendsUser(s: Channel, act: Act)
    requires Framed(s) && Enabled(s, act)
    requires !act.LookUp? && !act.Deliver?
    ensures Opening(Apply(s, act))
  {
  }

  lemma OpeningReceives(s: Channel, act: Act)
    requires Framed(s) && Enabled(s, act)
    ensures Opening(Flip(Apply(s, act)))
  {
  }

  lemma ShapedSends(s: Channel, act: Act)
    requires Framed(s) && Enabled(s, act)
    ensures Shaped(Apply(s, act))
  {
  }

  lemma ShapedReceivesLookUp(s: Channel, act: Act)
    requires Framed(s) && Enabled(s, act) && act.LookUp?
    ensures Shaped(Flip(Apply(s, act)))
  {
  }

  lemma ShapedReceivesDeliver(s: Channel, act: Act)
    requires Framed(s) && Enabled(s, act) && act.Deliver?
    ensures Shaped(Flip(Apply(s, act)))
  {
    if Room(s, act) {
      RoomIsSilent(s, act);
    }
  }

  lemma ShapedReceivesUser(s: Channel, act: Act)
    requires Framed(s) && Enabled(s, act) && !act.LookUp? && !act.Deliver?
    ensures Shaped(Flip(Apply(s, act)))
  {
  }

  lemma ConservedSendsLookUp(s: Channel, act: Act)
    requires Framed(s) && Enabled(s, act) && Conserved(s)
    requires act.LookUp?
    ensures Conserved(Apply(s, act))
  {
    PushCounts(s.ab, Out(s, act));
  }

  lemma ConservedSendsCredit(s: Channel, act: Act)
    requires Framed(s) && Enabled(s, act) && Conserved(s)
    requires act.Deliver? && s.a.port.hand.frame.Window?
    ensures Conserved(Apply(s, act))
  {
  }

  lemma ConservedSendsQueued(s: Channel, act: Act)
    requires Framed(s) && Enabled(s, act) && Conserved(s)
    requires Room(s, act)
    ensures Conserved(Apply(s, act))
  {
    RoomIsSilent(s, act);
  }

  lemma ConservedSendsLost(s: Channel, act: Act)
    requires Framed(s) && Enabled(s, act) && Conserved(s)
    requires act.Deliver? && !s.a.port.hand.frame.Window? && !Room(s, act)
    ensures Conserved(Apply(s, act))
  {
    PushCounts(s.ab, Out(s, act));
  }

  lemma ConservedSendsUser(s: Channel, act: Act)
    requires Framed(s) && Enabled(s, act) && Conserved(s)
    requires !act.LookUp? && !act.Deliver?
    ensures Conserved(Apply(s, act))
  {
    PushCounts(s.ab, Out(s, act));
  }

  lemma ConservedReceivesLookUp(s: Channel, act: Act)
    requires Framed(s) && Enabled(s, act) && Conserved(Flip(s))
    requires act.LookUp?
    ensures Conserved(Flip(Apply(s, act)))
  {
    PushCounts(s.ab, Out(s, act));
    PushCounts(s.a.loc.q.recv, s.a.port.hand);
  }

  lemma ConservedReceivesCredit(s: Channel, act: Act)
    requires Framed(s) && Enabled(s, act) && Conserved(Flip(s))
    requires act.Deliver? && s.a.port.hand.frame.Window?
    ensures Conserved(Flip(Apply(s, act)))
  {
  }

  lemma ConservedReceivesQueued(s: Channel, act: Act)
    requires Framed(s) && Enabled(s, act) && Conserved(Flip(s))
    requires Room(s, act)
    ensures Conserved(Flip(Apply(s, act)))
  {
    PushCounts(s.a.loc.q.recv, s.a.port.hand);
  }

  lemma ConservedReceivesLost(s: Channel, act: Act)
    requires Framed(s) && Enabled(s, act) && Conserved(Flip(s))
    requires act.Deliver? && !s.a.port.hand.frame.Window? && !Room(s, act)
    ensures Conserved(Flip(Apply(s, act)))
  {
    PushCounts(s.ab, Out(s, act));
  }

  /** An acknowledgement turns the frame being processed into credit of the batch,
      or a full batch into a window frame. */
  lemma ConservedReceivesAck(s: Channel, act: Act)
    requires Framed(s) && Enabled(s, act) && Conserved(Flip(s))
    requires act.AckData?
    ensures Conserved(Flip(Apply(s, act)))
  {
    PushCounts(s.ab, Out(s, act));
  }

  lemma ConservedReceivesUser(s: Channel, act: Act)
    requires Framed(s) && Enabled(s, act) && Conserved(Flip(s))
    requires !act.LookUp? && !act.Deliver? && !act.AckData?
    ensures Conserved(Flip(Apply(s, act)))
  {
    PushCounts(s.ab, Out(s, act));
  }

  lemma BoundedSendsReader(s: Channel, act: Act)
    requires Framed(s) && Enabled(s, act) && Bounded(s)
    requires act.LookUp? || act.Deliver?
    ensures Bounded(Apply(s, act))
  {
    PushCounts(s.ab, Out(s, act));
  }

  lemma BoundedSendsUser(s: Channel, act: Act)
    requires Framed(s) && Enabled(s, act) && Bounded(s)
    requires !act.LookUp? && !act.Deliver?
    ensures Bounded(Apply(s, act))
  {
    PushCounts(s.ab, Out(s, act));
  }

  lemma BoundedReceivesLookUp(s: Channel, act: Act)
    requires Framed(s) && Enabled(s, act) && Bounded(Flip(s))
    requires act.LookUp?
    ensures Bounded(Flip(Apply(s, act)))
  {
  }

  lemma BoundedReceivesDeliver(s: Channel, act: Act)
    requires Framed(s) && Enabled(s, act) && Bounded(Flip(s))
    requires act.Deliver?
    ensures Bounded(Flip(Apply(s, act)))
  {
    DeliveredOrLost(s, act);
    PushCounts(s.a.loc.q.recv, s.a.port.hand);
  }

  lemma BoundedReceivesUser(s: Channel, act: Act)
    requires Framed(s) && Enabled(s, act) && Bounded(Flip(s))
    requires !act.LookUp? && !act.Deliver?
    ensures Bounded(Flip(Apply(s, act)))
  {
  }

  lemma InOrderSendsLookUp(s: Channel, act: Act)
    requires Framed(s) && Enabled(s, act) && InOrder(s)
    requires act.LookUp?
    ensures InOrder(Apply(s, act))
  {
    PushQueued(s.ab, Out(s, act));
  }

  lemma InOrderSendsDeliver(s: Channel, act: Act)
    requires Framed(s) && Enabled(s, act) && InOrder(s)
    requires act.Deliver?
    ensures InOrder(Apply(s, act))
  {
    if Room(s, act) || s.a.port.hand.frame.Window? {
      RoomIsSilent(s, act);
    } else {
      InOrderSendsLost(s, act);
    }
  }

  lemma InOrderSendsLost(s: Channel, act: Act)
    requires Framed(s) && Enabled(s, act) && InOrder(s)
    requires act.Deliver? && !Room(s, act) && !s.a.port.hand.frame.Window?
    ensures InOrder(Apply(s, act))
  {
    var out := Out(s, act);
    PushQueued(s.ab, out);
    assert Given(Apply(s, act)) == Given(s);
    assert Apply(s, act).a.loc.sent == s.a.loc.sent + QueuedOf(out);
  }

  predicate Writes(act: Act) {
    act.AnnounceOpen? || act.WriteHeld? || act.SendControl? || act.AckData?
  }

  lemma InOrderSendsWrite(s: Channel, act: Act)
    requires Framed(s) && Enabled(s, act) && InOrder(s)
    requires Writes(act)
    ensures InOrder(Apply(s, act))
  {
    PushQueued(s.ab, Out(s, act));
    assert Given(Apply(s, act)) == Given(s);
    assert Apply(s, act).a.loc.sent == s.a.loc.sent + QueuedOf(Out(s, act));
  }

  lemma InOrderSendsUser(s: Channel, act: Act)
    requires Framed(s) && Enabled(s, act) && InOrder(s)
    requires !act.LookUp? && !act.Deliver? && !Writes(act)
    ensures InOrder(Apply(s, act))
  {
  }

  /** A frame that is looked up and found is in hand; one that is not found was not
      owed to anybody. */
  lemma InOrderReceivesLookUp(s: Channel, act: Act)
    requires Framed(s) && Enabled(s, act) && InOrder(Flip(s))
    requires act.LookUp?
    ensures InOrder(Flip(Apply(s, act)))
  {
    var before, after := Flip(s), Flip(Apply(s, act));
    assert after.a == before.a && after.ab == before.ab[1..];
    assert QueuedOnly(before.ab) == QueuedOf(Full(before.ab[0])) + QueuedOnly(after.ab);
    if Starting(after.b.loc.life) {
      assert Given(after) == Given(before) + QueuedOf(Full(before.ab[0]));
    } else {
      assert Given(after) == Given(before);
    }
  }

  /** Delivery moves the frame in hand to the end of the receive queue, or loses
      it for good. */
  lemma InOrderReceivesDeliver(s: Channel, act: Act)
    requires Framed(s) && Enabled(s, act) && InOrder(Flip(s))
    requires act.Deliver?
    ensures InOrder(Flip(Apply(s, act)))
  {
    var after := Flip(Apply(s, act));
    DeliveredOrLost(s, act);
    if after.b.loc.q.recv == s.a.loc.q.recv {
      assert Given(after) == s.a.loc.got + s.a.loc.q.recv <= Given(Flip(s));
    } else {
      assert Given(after) == s.a.loc.got + (s.a.loc.q.recv + [s.a.port.hand.frame]) == Given(Flip(s));
    }
  }

  lemma DeliveredOrLost(s: Channel, act: Act)
    requires Framed(s) && Enabled(s, act) && act.Deliver?
    ensures var before, after := s.a, Apply(s, act).a;
      && Apply(s, act).ba == s.ba && Apply(s, act).b == s.b
      && after.port.hand.Empty? && after.loc.got == before.loc.got && after.loc.busy == before.loc.busy
      && (if after.loc.q.recv == before.loc.q.recv then
            (after.loc.life == before.loc.life && before.port.hand.frame.Window?) || !Starting(after.loc.life)
          else
            && after.loc.q.recv == before.loc.q.recv + [before.port.hand.frame]
            && before.port.hand.frame.Queued() && after.loc.life == before.loc.life)
  {
  }

  lemma InOrderReceivesTake(s: Channel, act: Act)
    requires Framed(s) && Enabled(s, act) && InOrder(Flip(s))
    requires act.TakeFrame?
    ensures InOrder(Flip(Apply(s, act)))
  {
    var after := Flip(Apply(s, act));
    assert s.a.loc.got + [s.a.loc.q.recv[0]] + s.a.loc.q.recv[1..] == s.a.loc.got + s.a.loc.q.recv;
    assert Given(after) == Given(Flip(s));
  }

  lemma InOrderReceivesUser(s: Channel, act: Act)
    requires Framed(s) && Enabled(s, act) && InOrder(Flip(s))
    requires !act.LookUp? && !act.Deliver? && !act.TakeFrame?
    ensures InOrder(Flip(Apply(s, act)))
  {
    assert Given(Flip(Apply(s, act))) == Given(Flip(s));
  }

  lemma OpeningKept(s: Channel, act: Act)
    requires Framed(s) && Enabled(s, act)
    ensures Opening(Apply(s, act)) && Opening(Flip(Apply(s, act)))
  {
    OpeningReceives(s, act);
    match act
    case LookUp(_) => OpeningSendsLookUp(s, act);
    case Deliver(_) => OpeningSendsDeliver(s, act);
    case _ => OpeningSendsUser(s, act);
  }

  lemma ShapedKept(s: Channel, act: Act)
    requires Framed(s) && Enabled(s, act)
    ensures Shaped(Apply(s, act)) && Shaped(Flip(Apply(s, act)))
  {
    ShapedSends(s, act);
    if act.LookUp? {
      ShapedReceivesLookUp(s, act);
    } else if act.Deliver? {
      ShapedReceivesDeliver(s, act);
    } else {
      ShapedReceivesUser(s, act);
    }
  }

  lemma ConservedByDelivery(s: Channel, act: Act)
    requires Framed(s) && Enabled(s, act) && Conserved(s) && Conserved(Flip(s))
    requires act.Deliver? && !s.a.port.hand.frame.Window?
    ensures Conserved(Apply(s, act)) && Conserved(Flip(Apply(s, act)))
  {
    if Room(s, act) {
      ConservedSendsQueued(s, act);
      ConservedReceivesQueued(s, act);
    } else {
      ConservedSendsLost(s, act);
      ConservedReceivesLost(s, act);
    }
  }

  lemma ConservedKept(s: Channel, act: Act)
    requires Framed(s) && Enabled(s, act) && Conserved(s) && Conserved(Flip(s))
    ensures Conserved(Apply(s, act)) && Conserved(Flip(Apply(s, act)))
  {
    match act
    case LookUp(_) =>
      ConservedSendsLookUp(s, act);
      ConservedReceivesLookUp(s, act);
    case Deliver(_) =>
      if s.a.port.hand.frame.Window? {
        ConservedSendsCredit(s, act);
        ConservedReceivesCredit(s, act);
      } else {
        ConservedByDelivery(s, act);
      }
    case AckData =>
      ConservedSendsUser(s, act);
      ConservedReceivesAck(s, act);
    case _ =>
      ConservedSendsUser(s, act);
      ConservedReceivesUser(s, act);
  }

  lemma InOrderKept(s: Channel, act: Act)
    requires Framed(s) && Enabled(s, act) && InOrder(s) && InOrder(Flip(s))
    ensures InOrder(Apply(s, act)) && InOrder(Flip(Apply(s, act)))
  {
    if act.LookUp? {
      InOrderSendsLookUp(s, act);
      InOrderReceivesLookUp(s, act);
    } else if act.Deliver? {
      InOrderSendsDeliver(s, act);
      InOrderReceivesDeliver(s, act);
    } else {
      if Writes(act) {
        InOrderSendsWrite(s, act);
      } else {
        InOrderSendsUser(s, act);
      }
      if act.TakeFrame? {
        InOrderReceivesTake(s, act);
      } else {
        InOrderReceivesUser(s, act);
      }
    }
  }

  lemma BoundedKept(s: Channel, act: Act)
    requires Framed(s) && Enabled(s, act) && Bounded(s) && Bounded(Flip(s))
    ensures Bounded(Apply(s, act)) && Bounded(Flip(Apply(s, act)))
  {
    if act.LookUp? {
      BoundedSendsReader(s, act);
      BoundedReceivesLookUp(s, act);
    } else if act.Deliver? {
      BoundedSendsReader(s, act);
      BoundedReceivesDeliver(s, act);
    } else {
      BoundedSendsUser(s, act);
      BoundedReceivesUser(s, act);
    }
  }

  lemma ApplyKeeps(s: Channel, act: Act)
    requires Inv(s) && Enabled(s, act)
    ensures Inv(Apply(s, act))
  {
    OpeningKept(s, act);
    ShapedKept(s, act);
    ConservedKept(s, act);
    BoundedKept(s, act);
    InOrderKept(s, act);
  }

  lemma FlipInv(s: Channel)
    requires Inv(s)
    ensures Inv(Flip(s))
  {
  }

  lemma StepKeeps(s: Channel, st: Step)
    requires Inv(s) && CanStep(s, st)
    ensures Inv(Do(s, st))
  {
    if st.side.Left? {
      ApplyKeeps(s, st.act);
    } else {
      ApplyKeeps(Flip(s), st.act);
    }
  }

  /** The invariant holds after every run. */
  lemma {:induction false} RunKeeps(s: Channel, run: seq<Step>)
    requires Inv(s) && CanRun(s, run)
    ensures Inv(Run(s, run))
    decreases |run|
  {
    if run != [] {
      StepKeeps(s, run[0]);
      RunKeeps(Do(s, run[0]), run[1..]);
    }
  }

  /** One run after another. */
  lemma {:induction false} RunAppend(s: Channel, x: seq<Step>, y: seq<Step>)
    requires CanRun(s, x) && CanRun(Run(s, x), y)
    ensures CanRun(s, x + y) && Run(s, x + y) == Run(Run(s, x), y)
    decreases |x|
  {
    if x == [] {
      assert x + y == y;
    } else {
      RunAppend(Do(s, x[0]), x[1..], y);
      assert (x + y)[1..] == x[1..] + y;
    }
  }
}

/** The flow-control theorems, over every run of every pair of users. */
module FlowControl {
  import opened Frames
  import opened Window
  import opened Channel
  import opened ChannelInvariants

  /** Credit conservation: never above the window, and exactly the window in both
      directions while both ends are up. */
  lemma CreditConservation(s: Channel, run: seq<Step>)
    requires Init(s) && CanRun(s, run)
    ensures var t := Run(s, run);
      && Credits(t) <= SEND_WINDOW && Credits(Flip(t)) <= SEND_WINDOW
      && (Healthy(t) ==> Credits(t) == Credits(Flip(t)) == SEND_WINDOW)
  {
    InitInv(s);
    RunKeeps(s, run);
  }

  /** addSendCredit never meets a full channel: a window frame that arrives fits,
      and carries exactly one full batch. */
  lemma NoExcessCredit(s: Channel, run: seq<Step>)
    requires Init(s) && CanRun(s, run)
    ensures var t := Run(s, run);
      t.a.port.hand.Full? && t.a.port.hand.frame.Window? ==>
        && t.a.port.hand.frame.credits == ACK_THRESHOLD
        && t.a.loc.q.credit + t.a.port.hand.frame.credits <= SEND_WINDOW
  {
    InitInv(s);
    RunKeeps(s, run);
  }

  /** dispatch is about to take its default branch at end a. */
  predicate Overrun(s: Channel) {
    && s.a.port.hand.Full? && !s.a.port.hand.frame.Window?
    && !(|s.a.loc.q.recv| < RECV_CAPACITY)
  }

  /** If the peer tries at most RECV_SLACK control frames, the receive queue never
      overflows: at most a window of data frames and RECV_SLACK control frames,
      and room for the next frame. */
  lemma NoOverrun(s: Channel, run: seq<Step>)
    requires Init(s) && CanRun(s, run)
    requires Run(s, run).b.loc.ctl <= RECV_SLACK
    ensures var t := Run(s, run);
      && !Overrun(t)
      && DataCount(t.a.loc.q.recv) <= SEND_WINDOW
      && ControlCount(t.a.loc.q.recv) <= RECV_SLACK
      && |t.a.loc.q.recv| <= RECV_CAPACITY
  {
    InitInv(s);
    RunKeeps(s, run);
    InvNoOverrun(Run(s, run));
  }

  lemma InvNoOverrun(t: Channel)
    requires Inv(t) && t.b.loc.ctl <= RECV_SLACK
    ensures !Overrun(t)
    ensures DataCount(t.a.loc.q.recv) <= SEND_WINDOW
    ensures ControlCount(t.a.loc.q.recv) <= RECV_SLACK
    ensures |t.a.loc.q.recv| <= RECV_CAPACITY
  {
    CountsFill(t.a.loc.q.recv);
    assert Conserved(Flip(t)) && Bounded(Flip(t)) && Shaped(t);
  }

  /** A sender with no credit is not stranded: at least a window less one unsent
      batch is on its way to the peer's consumer or back as credit. */
  lemma NotStranded(s: Channel, run: seq<Step>)
    requires Init(s) && CanRun(s, run)
    requires Healthy(Run(s, run)) && Run(s, run).a.loc.q.credit == 0
    ensures var t := Run(s, run);
      SEND_WINDOW - ACK_THRESHOLD + 1 <=
        DataOf(t.a.loc.hold) + DataCount(t.ab) + DataOf(t.b.port.hand) + DataCount(t.b.loc.q.recv)
        + (if t.b.loc.busy then 1 else 0)
        + CreditSum(t.ba) + CreditOf(t.a.port.hand)
  {
    InitInv(s);
    RunKeeps(s, run);
  }

  /** Open before data: a frame other than an open is looked up only at an end
      that has registered the session, or has refused or removed it. */
  lemma OpenBeforeData(s: Channel, run: seq<Step>)
    requires Init(s) && CanRun(s, run)
    ensures var t := Run(s, run);
      && (t.ba != [] && !t.ba[0].Open? ==> !t.a.loc.life.Absent?)
      && (t.ba != [] && t.ba[0].Open? ==> t.a.loc.life.Absent?)
  {
    InitInv(s);
    RunKeeps(s, run);
  }

  /** Frames reach the consumer in the order they were written, and none is
      missing as long as the session is registered. */
  lemma FifoDelivery(s: Channel, run: seq<Step>)
    requires Init(s) && CanRun(s, run)
    ensures var t := Run(s, run);
      && t.b.loc.got + t.b.loc.q.recv <= t.a.loc.sent
      && (Starting(t.b.loc.life) ==> Given(t) + QueuedOnly(t.ab) == t.a.loc.sent)
  {
    InitInv(s);
    RunKeeps(s, run);
    InvPrefix(Run(s, run));
  }

  lemma InvPrefix(t: Channel)
    requires Inv(t)
    ensures t.b.loc.got + t.b.loc.q.recv <= t.a.loc.sent
    ensures t.b.loc.got <= t.a.loc.sent
  {
  }

  /** What the link's goroutines leave alone in a session that is in use. */
  predicate Undisturbed(l: Local, l': Local) {
    && l'.hold == l.hold && l'.busy == l.busy && l'.got == l.got
    && (Usable(l) && !l.life.Refused? ==> Usable(l') && !l'.life.Refused?)
    && (l'.sent == l.sent || (!Usable(l') && |l'.sent| == 1 && l'.sent[0].Error? && l.sent == []))
    && (if l'.life.Refused? then l'.ctl <= 1 && !Usable(l') else l'.ctl == l.ctl && !l.life.Refused?)
  }

  lemma LinkUndisturbed(s: Channel, act: Act)
    requires Framed(s) && !Overrun(s) && LinkMay(s.a, act) && Enabled(s, act)
    requires s.a.loc.life.Refused? ==> s.a.loc.ctl <= 1
    ensures Undisturbed(s.a.loc, Apply(s, act).a.loc)
    ensures s.a.port.wrBroken ==> Apply(s, act).a.port.wrBroken
  {
  }
}
