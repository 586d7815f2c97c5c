/** What the link does for a session when nothing fails: every act brings the session
    nearer its end, and there is one as long as anything is under way. The frames
    count for what they still cause, in whoever takes them. */
module ChannelProgress {
  import opened Frames
  import opened Channel
  import opened ChannelInvariants
  import opened FlowControl

  /** Not a fault of the link, and every open is accepted. */
  predicate Calmly(act: Act) {
    !act.BreakWrites? && !act.StopReader? && !act.RemoveFromMap? && (act.LookUp? ==> act.verdict.Accept?)
  }

  /** The steps a frame still causes while it is on the wire. */
  function WireWork(f: Frame): nat {
    match f
    case Data(_, _) => 7
    case Window(_) => 2
    case Open(_, _, _) => 1
    case _ => 3
  }

  function WireSum(q: seq<Frame>): nat {
    if q == [] then 0 else WireWork(q[0]) + WireSum(q[1..])
  }

  /** ... once it is in the receive queue. */
  function QueueWork(f: Frame): nat {
    if f.Data? then 5 else 1
  }

  function QueueSum(q: seq<Frame>): nat {
    if q == [] then 0 else QueueWork(q[0]) + QueueSum(q[1..])
  }

  lemma {:induction false} PushSums(q: seq<Frame>, f: Slot)
    ensures WireSum(Push(q, f)) == WireSum(q) + (if f.Full? then WireWork(f.frame) else 0)
    ensures QueueSum(Push(q, f)) == QueueSum(q) + (if f.Full? then QueueWork(f.frame) else 0)
  {
    if q != [] && f.Full? {
      PushSums(q[1..], f);
      assert (q + [f.frame])[1..] == q[1..] + [f.frame];
    }
  }

  function LifeWork(l: Local): nat {
    (match l.life
     case Absent => 3
     case Live => 2
     case Deleted => 1
     case _ => 0)
    + (if l.opener && !l.announced then 2 else 0)
  }

  /** What one end's link has still to do. */
  function PortWork(e: End): nat {
    LifeWork(e.loc) + QueueSum(e.loc.q.recv)
    + (if e.port.hand.Full? then WireWork(e.port.hand.frame) - 1 else 0)
  }

  function ChannelWork(s: Channel): nat {
    PortWork(s.a) + PortWork(s.b) + WireSum(s.ab) + WireSum(s.ba)
  }

  lemma LinkWorks(s: Channel, act: Act)
    requires Enabled(s, act) && LinkMay(s.a, act) && Calmly(act)
    requires Framed(s) && !Overrun(s) && !s.a.port.wrBroken
    ensures ChannelWork(Apply(s, act)) < ChannelWork(s)
  {
    PushSums(s.ab, Out(s, act));
    PushSums(s.a.loc.q.recv, s.a.port.hand);
  }

  /** The link of end a has something to do. */
  predicate LinkBusy(s: Channel) {
    || s.a.port.hand.Full? || s.ba != []
    || s.a.loc.life.Deleted?
    || (s.a.loc.opener && !s.a.loc.announced)
  }

  /** And it can. */
  lemma LinkMoves(s: Channel) returns (act: Act)
    requires LinkBusy(s) && !s.a.port.rdStopped
    ensures Enabled(s, act) && LinkMay(s.a, act) && Calmly(act)
  {
    if s.a.port.hand.Full? {
      act := Deliver(false);
    } else if s.ba != [] {
      act := LookUp(Accept);
    } else if s.a.loc.life.Deleted? {
      act := MarkDone;
    } else if s.a.loc.life.Absent? {
      act := Register;
    } else {
      act := AnnounceOpen(Open("r", "tcp", []));
    }
  }

  /** A healthy end without credit: the credits are somewhere on their way. */
  lemma CreditIsUnderWay(s: Channel)
    requires Healthy(s) && Conserved(s) && Shaped(s)
    requires s.a.loc.q.credit == 0 && s.a.loc.hold.Empty?
    ensures s.ab != [] || s.ba != [] || s.a.port.hand.Full? || s.b.port.hand.Full?
      || s.b.loc.q.recv != [] || s.b.loc.busy
  {
  }

  /** With nothing under way, everything sent has been taken. */
  lemma EverythingTaken(s: Channel)
    requires InOrder(s) && Starting(s.b.loc.life) && s.ab == [] && s.b.port.hand.Empty? && s.b.loc.q.recv == []
    ensures s.b.loc.got == s.a.loc.sent
  {
  }

  /** A close follows an EOF, and nothing reports an error. */
  predicate CalmSent(q: seq<Frame>) {
    forall i :: 0 <= i < |q| ==> !q[i].Error? && (q[i].Close? ==> Eof in q[..i])
  }
}
