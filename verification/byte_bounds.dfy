/** How many bytes a session can have under way in one direction: the window times
    the largest chunk its users send. internal/datatunnel/session.go */
module ByteBounds {
  import opened Frames
  import opened Window
  import opened Channel
  import opened ChannelInvariants

  predicate SmallFrame(f: Frame, limit: nat) { f.Data? ==> |f.payload| <= limit }

  predicate SmallSlot(f: Slot, limit: nat) { f.Full? ==> SmallFrame(f.frame, limit) }

  predicate SmallFrames(q: seq<Frame>, limit: nat) {
    forall i :: 0 <= i < |q| ==> SmallFrame(q[i], limit)
  }

  function Held(f: Slot): seq<Frame> { if f.Full? then [f.frame] else [] }

  /** The data frame the consumer is working on. */
  function InWork(l: Local): seq<Frame> {
    if l.busy && l.got != [] then [l.got[|l.got| - 1]] else []
  }

  /** What a has sent, or holds a credit for, and b has not acknowledged. */
  function Unacknowledged(s: Channel): seq<Frame> {
    InWork(s.b.loc) + s.b.loc.q.recv + Held(s.b.port.hand) + s.ab + Held(s.a.loc.hold)
  }

  predicate Small(s: Channel, limit: nat) {
    && SmallFrames(s.ab, limit) && SmallFrames(s.b.loc.q.recv, limit)
    && SmallSlot(s.b.port.hand, limit) && SmallSlot(s.a.loc.hold, limit)
    && SmallFrames(InWork(s.b.loc), limit)
    && (s.b.loc.busy ==> InWork(s.b.loc) != [] && InWork(s.b.loc)[0].Data?)
  }

  /** An act that hands the session no more than limit bytes. */
  predicate SmallAct(act: Act, limit: nat) {
    act.TakeCredit? ==> SmallFrame(act.data, limit)
  }

  lemma SmallSends(s: Channel, act: Act, limit: nat)
    requires Framed(s) && Enabled(s, act) && Small(s, limit) && SmallAct(act, limit)
    ensures Small(Apply(s, act), limit)
  {
    if SmallSlot(Out(s, act), limit) {
      SmallPush(s.ab, Out(s, act), limit);
    }
  }

  lemma SmallReceivesLookUp(s: Channel, act: Act, limit: nat)
    requires Framed(s) && Enabled(s, act) && Small(Flip(s), limit) && act.LookUp?
    ensures Small(Flip(Apply(s, act)), limit)
  {
  }

  lemma SmallReceivesDeliver(s: Channel, act: Act, limit: nat)
    requires Framed(s) && Enabled(s, act) && Small(Flip(s), limit) && act.Deliver?
    ensures Small(Flip(Apply(s, act)), limit)
  {
    DeliveredOrLost(s, act);
    SmallPush(s.a.loc.q.recv, s.a.port.hand, limit);
  }

  lemma SmallPush(q: seq<Frame>, f: Slot, limit: nat)
    requires SmallFrames(q, limit) && SmallSlot(f, limit)
    ensures SmallFrames(Push(q, f), limit)
  {
  }

  lemma SmallReceivesUser(s: Channel, act: Act, limit: nat)
    requires Framed(s) && Enabled(s, act) && Small(Flip(s), limit) && !act.LookUp? && !act.Deliver?
    ensures Small(Flip(Apply(s, act)), limit)
  {
  }

  predicate SmallRun(run: seq<Step>, limit: nat) {
    forall i :: 0 <= i < |run| ==> SmallAct(run[i].act, limit)
  }

  predicate SmallBoth(s: Channel, limit: nat) { Small(s, limit) && Small(Flip(s), limit) }

  lemma SmallStep(s: Channel, st: Step, limit: nat)
    requires Framed(s) && CanStep(s, st) && SmallBoth(s, limit) && SmallAct(st.act, limit)
    ensures SmallBoth(Do(s, st), limit)
  {
    var t := if st.side.Left? then s else Flip(s);
    SmallSends(t, st.act, limit);
    if st.act.LookUp? {
      SmallReceivesLookUp(t, st.act, limit);
    } else if st.act.Deliver? {
      SmallReceivesDeliver(t, st.act, limit);
    } else {
      SmallReceivesUser(t, st.act, limit);
    }
  }

  lemma {:induction false} SmallRunKeeps(s: Channel, run: seq<Step>, limit: nat)
    requires Inv(s) && CanRun(s, run) && SmallBoth(s, limit) && SmallRun(run, limit)
    ensures SmallBoth(Run(s, run), limit) && Inv(Run(s, run))
    decreases |run|
  {
    if run != [] {
      SmallStep(s, run[0], limit);
      StepKeeps(s, run[0]);
      SmallRunKeeps(Do(s, run[0]), run[1..], limit);
    }
  }

  lemma {:induction false} AppendCount(x: seq<Frame>, y: seq<Frame>)
    ensures DataCount(x + y) == DataCount(x) + DataCount(y)
  {
    if x == [] {
      assert x + y == y;
    } else {
      AppendCount(x[1..], y);
      assert (x + y)[1..] == x[1..] + y;
    }
  }

  lemma {:induction false} PayloadBounded(q: seq<Frame>, limit: nat, count: nat)
    requires SmallFrames(q, limit) && DataCount(q) <= count
    ensures |Payload(q)| <= limit * count
  {
    if q != [] {
      if q[0].Data? {
        PayloadBounded(q[1..], limit, count - 1);
        assert limit * count == limit + limit * (count - 1);
      } else {
        PayloadBounded(q[1..], limit, count);
      }
    }
  }

  /** Every unacknowledged frame has its credit. */
  lemma CountUnacknowledged(s: Channel, limit: nat)
    requires Small(s, limit)
    ensures DataCount(Unacknowledged(s)) <= Credits(s)
  {
    var work, recv, hand, hold := InWork(s.b.loc), s.b.loc.q.recv, Held(s.b.port.hand), Held(s.a.loc.hold);
    AppendCount(work + recv + hand + s.ab, hold);
    AppendCount(work + recv + hand, s.ab);
    AppendCount(work + recv, hand);
    AppendCount(work, recv);
  }

  lemma SmallUnacknowledged(s: Channel, limit: nat)
    requires Small(s, limit)
    ensures SmallFrames(Unacknowledged(s), limit)
  {
  }

  lemma InvBytes(s: Channel, limit: nat)
    requires Inv(s) && Small(s, limit)
    ensures |Payload(Unacknowledged(s))| <= limit * SEND_WINDOW
  {
    CountUnacknowledged(s, limit);
    SmallUnacknowledged(s, limit);
    PayloadBounded(Unacknowledged(s), limit, SEND_WINDOW);
  }

  /** If no send carries more than limit bytes, then the bytes that one direction of
      a session has under way, queued, or being processed never exceed the window
      times limit, in any run. */
  lemma UnacknowledgedBytesBounded(s: Channel, run: seq<Step>, limit: nat)
    requires Init(s) && CanRun(s, run) && SmallRun(run, limit)
    ensures var t := Run(s, run);
      && |Payload(Unacknowledged(t))| <= limit * SEND_WINDOW
      && |Payload(Unacknowledged(Flip(t)))| <= limit * SEND_WINDOW
  {
    InitInv(s);
    SmallRunKeeps(s, run, limit);
    InvBytesBoth(Run(s, run), limit);
  }

  lemma InvBytesBoth(s: Channel, limit: nat)
    requires Inv(s) && SmallBoth(s, limit)
    ensures |Payload(Unacknowledged(s))| <= limit * SEND_WINDOW
    ensures |Payload(Unacknowledged(Flip(s)))| <= limit * SEND_WINDOW
  {
    FlipInv(s);
    InvBytes(s, limit);
    InvBytes(Flip(s), limit);
  }
}
