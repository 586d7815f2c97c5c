/** The session and the link as objects, with the fields the runtime has. Each
    method is proved to do to the session what a row of acts of the two-ended
    system does: loc is the end's local state there, kept beside the fields.
    internal/datatunnel/session.go, internal/datatunnel/link.go */
module Sessions {
  import opened Frames
  import opened Window
  import opened Channel
  import opened Mux
  import Envelope

  /** SendData, taken in one piece: take a credit, write the frame. */
  function SendEffect(e: End, f: Frame): Outcome
    requires CanAct(e, TakeCredit(f))
  {
    Effect(Effect(e, TakeCredit(f)).end, WriteHeld)
  }

  /** Dispatch, taken in one piece, is the two acts of the reader in a row. */
  lemma DispatchIsTwoActs(e: End, f: Frame, v: Verdict)
    requires e.loc.life.Live? && e.port.hand.Empty? && !f.Open?
    ensures var found := LookUpEffect(e, f, v);
      && found.out.Empty? && CanAct(found.end, Deliver(false))
      && Effect(found.end, Deliver(false)) == Delivered(e, f, false)
  {
    assert LookUpEffect(e, f, v).end.(port := e.port) == e;
  }

  /** Link.Open, taken in one piece, is registering and announcing. */
  lemma OpenIsTwoActs(e: End, f: Frame)
    requires e == End(FreshLocal(true), e.port) && f.Open?
    ensures CanAct(e, Register)
    ensures var added := Effect(e, Register).end;
      && CanAct(added, AnnounceOpen(f))
      && Effect(added, AnnounceOpen(f)) ==
           (if e.port.wrBroken then Outcome(added, Empty)
            else Outcome(e.(loc := FreshLocal(true).(life := Live, announced := true)), Full(f)))
  {
  }

  /** An open is answered with an error exactly when it is refused, or accepted for an
      ID that is taken, and the connection takes the answer. */
  lemma RefusalIsTold(e: End, f: Frame, v: Verdict)
    requires f.Open?
    ensures var o, taken := LookUpEffect(e, f, v), !e.loc.life.Absent?;
      && (o.out.Full? <==> !e.port.wrBroken && (v.Refuse? || (v.Accept? && taken)))
      && (o.out.Full? ==> o.out.frame.Error? && ValidError(o.out.frame.message))
      && (o.end.loc.life.Live? <==> if taken then e.loc.life.Live? else v.Accept?)
  {
    Envelope.LinkTexts();
  }

  /** removeSession, taken in one piece, is its two acts in a row. */
  lemma RemovalIsTwoActs(e: End)
    requires e.loc.life.Live?
    ensures var deleted := Effect(e, RemoveFromMap);
      && CanAct(deleted.end, MarkDone)
      && Effect(deleted.end, MarkDone).end == e.(loc := e.loc.(life := Done))
  {
  }

  /** The write of a control frame, which fails if the frame does not validate. */
  function CloseEffect(e: End, f: Frame): Outcome
    requires CanAct(e, SendControl(f))
  {
    if Sendable(f) then Effect(e, SendControl(f)) else Outcome(Tried(e), Empty)
  }

  /** A close, taken in one piece, is telling the peer, leaving the map and closing done
      in a row; if the frame does not validate, or the connection does not take it,
      the session ends all the same. */
  lemma CloseIsThreeActs(e: End, f: Frame)
    requires e.loc.life.Live? && Usable(e.loc) && f.Control()
    ensures CanAct(e, SendControl(f))
    ensures var told := CloseEffect(e, f);
      && told.out == (if Sendable(f) && !e.port.wrBroken then Full(f) else Empty)
      && (Sendable(f) ==> told == Effect(e, SendControl(f)))
      && CanAct(told.end, RemoveFromMap) && CanAct(Effect(told.end, RemoveFromMap).end, MarkDone)
      && Effect(Effect(told.end, RemoveFromMap).end, MarkDone).end.loc == told.end.loc.(life := Done)
  {
  }

  lemma OpenTexts()
    ensures ValidError("route is not configured") && ValidError("session already exists")
  {
  }

  /** Credit on top of what there is, up to the window. */
  function Topped(credit: nat, n: nat): nat {
    if credit >= SEND_WINDOW then credit else if credit + n <= SEND_WINDOW then credit + n else SEND_WINDOW
  }

  datatype SendResult = Sent | Closed | WriteFailed | Blocked

  class Session {
    const id: Id
    const link: LinkObject
    var credit: nat
    var recv: seq<Frame>
    var consumed: nat
    var done: bool
    var claimed: bool
    ghost var loc: Local

    function Q(): Queues
      reads this
    {
      Queues(credit, recv, consumed)
    }

    ghost predicate Coherent()
      reads this
    {
      && loc.q == Q()
      && loc.hold.Empty?
      && (done <==> loc.life.Done?)
    }

    // Methods that need only their own session say so; they leave its life alone,
    // and with it the validity of the link.

    /** This end of the session, as the two-ended system has it. A session whose ID
        is not a token can write as little as one whose connection is broken. */
    ghost function Here(): End
      reads this, link
    {
      End(loc, Port(link.broken || !ValidToken(id), false, Empty))
    }

    constructor (id: Id, link: LinkObject, ghost opener: bool)
      ensures this.id == id && this.link == link
      ensures Q() == FULL_WINDOW && !done && !claimed
      ensures Coherent() && loc == FreshLocal(opener)
    {
      this.id := id;
      this.link := link;
      credit, recv, consumed, done, claimed := 0, [], 0, false, false;
      loc := FreshLocal(opener);
      new;
      for i := 0 to SEND_WINDOW
        invariant credit == i && recv == [] && consumed == 0 && !done && !claimed && loc == FreshLocal(opener)
      {
        credit := credit + 1;
      }
    }

    /** The caller owns the session if and only if nobody did before. */
    method TryClaim() returns (ok: bool)
      modifies this`claimed
      ensures claimed && ok == !old(claimed)
    {
      ok := !claimed;
      claimed := true;
    }

    /** One send, at a moment when its select is evaluated. preferDone chooses when
        both cases are ready; Blocked means that neither is. */
    method SendData(kind: Kind, payload: Bytes, preferDone: bool) returns (r: SendResult)
      requires Coherent() && Usable(loc)
      modifies this`credit, this`loc, link`wire
      ensures Coherent() && loc.life == old(loc.life)
      ensures r.Blocked? <==> old(credit) == 0 && !done
      ensures r.Blocked? || r.Closed? ==> credit == old(credit) && loc == old(loc) && link.wire == old(link.wire)
      ensures r.Closed? <==> done && (old(credit) == 0 || preferDone)
      ensures r.Sent? || r.WriteFailed? ==>
        && CanAct(old(Here()), TakeCredit(Data(kind, payload)))
        && Here() == SendEffect(old(Here()), Data(kind, payload)).end
        && link.wire == old(link.wire) + Tag(id, SendEffect(old(Here()), Data(kind, payload)).out)
        && r.Sent? == !Here().port.wrBroken
      ensures r.Sent? ==> link.wire == old(link.wire) + [Tagged(id, Data(kind, payload))]
      ensures r.Sent? || r.WriteFailed? ==> credit == old(credit) - 1
    {
      if credit > 0 && !(done && preferDone) {
        var f := Data(kind, payload);
        loc := SendEffect(Here(), f).end.loc;
        credit := credit - 1;
        Envelope.RecordRoundTrip(id, f);
        var ok := link.WriteFrame(id, f);
        r := if ok then Sent else WriteFailed;
      } else if done {
        r := Closed;
      } else {
        r := Blocked;
      }
    }

    method SendEof() returns (ok: bool)
      requires Coherent() && Usable(loc)
      modifies this`loc, link`wire
      ensures Coherent() && loc.life == old(loc.life) && ok == !Here().port.wrBroken
      ensures link.wire == if ok then old(link.wire) + [Tagged(id, Eof)] else old(link.wire)
      ensures CanAct(old(Here()), SendControl(Eof))
      ensures Here() == Effect(old(Here()), SendControl(Eof)).end
      ensures link.wire == old(link.wire) + Tag(id, Effect(old(Here()), SendControl(Eof)).out)
    {
      loc := Effect(Here(), SendControl(Eof)).end.loc;
      Envelope.RecordRoundTrip(id, Eof);
      ok := link.WriteFrame(id, Eof);
    }

    /** The consumer has finished with the data frame it took last. */
    method Ack()
      requires Coherent() && loc.busy
      modifies this`consumed, this`loc, link`wire
      ensures Coherent() && loc.life == old(loc.life)
      ensures consumed == if old(consumed) + 1 < ACK_THRESHOLD then old(consumed) + 1 else 0
      ensures link.wire == old(link.wire) +
        (if consumed == 0 && !Here().port.wrBroken then [Tagged(id, Frame.Window(old(consumed) + 1))] else [])
      ensures CanAct(old(Here()), AckData)
      ensures Here() == Effect(old(Here()), AckData).end
      ensures link.wire == old(link.wire) + Tag(id, Effect(old(Here()), AckData).out)
    {
      loc := Effect(Here(), AckData).end.loc;
      consumed := consumed + 1;
      if consumed >= ACK_THRESHOLD {
        Envelope.RecordRoundTrip(id, Frame.Window(consumed));
        var _ := link.WriteFrame(id, Frame.Window(consumed));
        consumed := 0;
      }
    }

    /** A receive from the queue by the consumer. */
    method Take() returns (f: Frame)
      requires Coherent() && Usable(loc) && !loc.busy && recv != []
      modifies this`recv, this`loc
      ensures Coherent() && loc.life == old(loc.life) && f == old(recv[0]) && recv == old(recv)[1..]
      ensures CanAct(old(Here()), TakeFrame)
      ensures Here() == Effect(old(Here()), TakeFrame).end
    {
      loc := Effect(Here(), TakeFrame).end.loc;
      f := recv[0];
      recv := recv[1..];
    }

    /** Credit that does not fit is dropped: the channel holds a window at most. */
    method AddSendCredit(n: nat)
      modifies this`credit
      ensures Q() == AddCredit(old(Q()), n)
      ensures credit == Topped(old(credit), n)
    {
      var i := 0;
      while i < n && credit < SEND_WINDOW
        invariant 0 <= i <= n
        invariant old(credit) < SEND_WINDOW ==> credit <= SEND_WINDOW
        invariant credit == old(credit) + i
        invariant old(credit) >= SEND_WINDOW ==> i == 0
      {
        credit := credit + 1;
        i := i + 1;
      }
    }

    /** markDone: done is closed at most once. */
    method CloseDone()
      requires Coherent()
      modifies this`done, this`loc
      ensures Coherent() && done && loc == old(loc).(life := Done)
    {
      done := true;
      loc := loc.(life := Done);
    }

    /** Close, CloseWithError and CloseWithCode: tell the peer, leave the map. A frame
        that does not validate is not written; the session is gone all the same. */
    method CloseWith(f: Frame)
      requires link.Valid() && this in link.ever && Usable(loc) && f.Control()
      requires id in link.sessions ==> link.sessions[id] == this   // IDs are not reused
      modifies this`loc, this`done, link`wire, link`sessions
      ensures link.Valid() && done && link.sessions == old(link.sessions) - {id}
      ensures loc == CloseEffect(old(Here()), f).end.loc.(life := Done)
      ensures link.wire == old(link.wire) + Tag(id, CloseEffect(old(Here()), f).out)
      ensures link.wire == old(link.wire) + (if old(link.Takes(id, f)) then [Tagged(id, f)] else [])
    {
      Tell(f);
      link.RemoveSession(id);
    }

    /** The write of a close or an error, whose failure is not reported. */
    method Tell(f: Frame)
      requires Coherent() && Usable(loc) && f.Control()
      modifies this`loc, link`wire
      ensures Coherent() && loc.life == old(loc.life)
      ensures loc == CloseEffect(old(Here()), f).end.loc
      ensures link.wire == old(link.wire) + Tag(id, CloseEffect(old(Here()), f).out)
      ensures link.wire == old(link.wire) + (if old(link.Takes(id, f)) then [Tagged(id, f)] else [])
    {
      loc := CloseEffect(Here(), f).end.loc;
      Envelope.RecordRoundTrip(id, f);
      var _ := link.WriteFrame(id, f);
    }
  }

  /** What a session had when the reader came to know it, at a position of its input. */
  datatype Base = Base(from: nat, recv: seq<Frame>, credit: nat)

  /** The frames for session id among the input after base, up to position i. */
  function Mine(input: seq<Tagged>, b: Base, i: nat, id: Id): seq<Frame>
    requires b.from <= i <= |input|
  {
    Only(input[b.from..i], id)
  }

  predicate Fits(b: Base, mine: seq<Frame>) { |b.recv| + |QueuedOnly(mine)| <= RECV_CAPACITY }

  /** The frames of mine, queued and credited on top of what there was. */
  predicate Given(recv: seq<Frame>, credit: nat, b: Base, mine: seq<Frame>) {
    recv == b.recv + QueuedOnly(mine) && credit == Topped(b.credit, CreditSum(mine))
  }

  lemma MineNext(input: seq<Tagged>, b: Base, i: nat, id: Id)
    requires b.from <= i < |input|
    ensures Mine(input, b, i + 1, id) == Push(Mine(input, b, i, id), if input[i].id == id then Full(input[i].frame) else Empty)
  {
    assert input[b.from..i + 1] == input[b.from..i] + Tag(input[i].id, Full(input[i].frame));
    OnlyPush(input[b.from..i], input[i].id, Full(input[i].frame), id);
  }

  /** One more frame, for this session or for another. */
  lemma GivenNext(b: Base, mine: seq<Frame>, f: Slot, recv: seq<Frame>, credit: nat)
    requires Given(recv, credit, b, mine)
    ensures f.Empty? || f.frame.Open? ==> Given(recv, credit, b, Push(mine, f))
    ensures f.Full? && f.frame.Window? ==> Given(recv, Topped(credit, f.frame.credits), b, Push(mine, f))
    ensures f.Full? && f.frame.Queued() ==> Given(recv + [f.frame], credit, b, Push(mine, f))
    ensures |QueuedOnly(Push(mine, f))| == |QueuedOnly(mine)| + |QueuedOf(f)|
  {
    PushQueued(mine, f);
    PushCounts(mine, f);
    if f.Full? && f.frame.Queued() {
      assert b.recv + QueuedOnly(mine) + [f.frame] == b.recv + (QueuedOnly(mine) + [f.frame]);
    }
  }

  /** An open for this ID is accepted. */
  predicate AcceptedAt(input: seq<Tagged>, verdicts: seq<Verdict>, i: nat, id: Id) {
    i < |input| && i < |verdicts| && input[i].id == id && input[i].frame.Open? && verdicts[i].Accept?
  }

  /** An open that is accepted finds or makes a session. */
  ghost predicate ServedBy(input: seq<Tagged>, verdicts: seq<Verdict>, i: nat, s: Session?, ever: set<Session>)
    requires i < |input|
  {
    AcceptedAt(input, verdicts, i, input[i].id) ==> s != null && s in ever && s.id == input[i].id
  }

  /** A session that an accepted open has made, with nothing of its own yet. */
  predicate KnownFrom(input: seq<Tagged>, verdicts: seq<Verdict>, id: Id, b: Base) {
    b == Base(b.from, [], SEND_WINDOW) && b.from > 0 && AcceptedAt(input, verdicts, b.from - 1, id)
  }

  class LinkObject {
    var sessions: map<Id, Session>
    var wire: seq<Tagged>
    var broken: bool
    ghost var ever: set<Session>   // every session ever registered here

    /** done implies absent, and absent implies done: nothing leaks. */
    ghost predicate Valid()
      reads this, ever
    {
      && (forall s <- ever :: s.link == this && s.Coherent())
      && (forall id <- sessions :: sessions[id] in ever && sessions[id].id == id && sessions[id].loc.life.Live?)
      && (forall s <- ever :: s.loc.life.Done? || (s.id in sessions && sessions[s.id] == s))
    }

    constructor ()
      ensures Valid() && sessions == map[] && wire == [] && !broken && ever == {}
    {
      sessions, wire, broken, ever := map[], [], false, {};
    }

    /** The connection refuses writes from now on. */
    method Break()
      requires Valid()
      modifies this`broken
      ensures Valid() && broken
    {
      broken := true;
    }

    /** The frame passes validation and the connection takes it. */
    predicate Takes(id: Id, f: Frame)
      reads this
    {
      !broken && Envelope.EncodeFrame(id, f).Sent?
    }

    method WriteFrame(id: Id, f: Frame) returns (ok: bool)
      modifies this`wire
      ensures ok == Takes(id, f)
      ensures wire == if ok then old(wire) + [Tagged(id, f)] else old(wire)
    {
      var encoded := Envelope.EncodeFrame(id, f);
      if encoded.NotSent? || broken {
        return false;
      }
      wire := wire + [Tagged(id, f)];
      ok := true;
    }

    method AddSession(id: Id, ghost opener: bool) returns (s: Session?)
      requires Valid()
      modifies this`sessions, this`ever
      ensures Valid()
      ensures id in old(sessions) ==> s == null && sessions == old(sessions) && ever == old(ever)
      ensures id !in old(sessions) ==>
        && s != null && fresh(s) && s.id == id
        && sessions == old(sessions)[id := s] && ever == old(ever) + {s}
        && s.Q() == FULL_WINDOW && s.loc == FreshLocal(opener).(life := Live)
    {
      if id in sessions {
        return null;
      }
      s := new Session(id, this, opener);
      s.loc := s.loc.(life := Live);
      sessions := sessions[id := s];
      ever := ever + {s};
    }

    method Accept(id: Id) returns (s: Session?)
      requires Valid()
      modifies this`sessions, this`ever
      ensures Valid()
      ensures s == null <==> id in old(sessions)
      ensures s == null ==> sessions == old(sessions) && ever == old(ever)
      ensures s != null ==>
        && fresh(s) && sessions == old(sessions)[id := s] && ever == old(ever) + {s}
        && s.loc == LookUpEffect(End(FreshLocal(false), OPEN_PORT), Open("", "", []), Verdict.Accept).end.loc
    {
      s := AddSession(id, false);
    }

    /** Register, then announce; on a failed write, take the session out again. */
    method OpenSession(id: Id, f: Frame) returns (s: Session?)
      requires Valid() && f.Open?
      modifies this`sessions, this`ever, this`wire
      ensures Valid()
      ensures s != null <==> id !in old(sessions) && Takes(id, f)
      ensures s != null ==>
        && fresh(s) && s.id == id && id in sessions && sessions[id] == s && s in ever && Usable(s.loc)
        && s.loc == FreshLocal(true).(life := Live, announced := true)
        && sessions == old(sessions)[id := s] && wire == old(wire) + [Tagged(id, f)]
      ensures s == null ==> sessions == old(sessions) && wire == old(wire)
    {
      s := AddSession(id, true);
      if s == null {
        return;
      }
      var ok := Announce(s, f);
      if !ok {
        assert id !in old(sessions) ==> old(sessions)[id := s] - {id} == old(sessions);
        RemoveSession(id);
        s := null;
      }
    }

    method Announce(s: Session, f: Frame) returns (ok: bool)
      requires Valid() && s in ever
      modifies this`wire, s`loc
      ensures Valid() && ok == Takes(s.id, f)
      ensures s.loc == if ok then old(s.loc).(announced := true) else old(s.loc)
      ensures wire == if ok then old(wire) + [Tagged(s.id, f)] else old(wire)
    {
      ok := WriteFrame(s.id, f);
      if ok {
        s.loc := s.loc.(announced := true);
      }
    }

    method RemoveSession(id: Id)
      requires Valid()
      modifies this`sessions
      modifies (set s <- ever | id in sessions && s == sessions[id])`done
      modifies (set s <- ever | id in sessions && s == sessions[id])`loc
      ensures Valid() && sessions == old(sessions) - {id}
      ensures id in old(sessions) ==>
        var s := old(sessions[id]);
        s.done && s.loc == old(s.loc).(life := Done)
    {
      if id in sessions {
        var s := sessions[id];
        sessions := sessions - {id};
        s.CloseDone();
      }
    }

    /** A frame other than an open has been read. Frames for unknown sessions are
        dropped; an overrun kills the session. */
    method Dispatch(id: Id, f: Frame)
      requires Valid() && !f.Open?
      modifies this`sessions, this`wire
      modifies set s <- ever | id in sessions && s == sessions[id]
      ensures Valid()
      ensures id !in old(sessions) ==> sessions == old(sessions) && wire == old(wire)
      ensures id in old(sessions) ==>
        var s := old(sessions[id]);
        var o := Delivered(old(s.Here()), f, false);
        && wire == old(wire) + Tag(id, o.out)
        && (if o.end.loc.life.Live? then sessions == old(sessions) && s.loc == o.end.loc
            else sessions == old(sessions) - {id} && s.loc == o.end.loc.(life := Done))
      ensures id in old(sessions) && f.Window? ==>
        var s := old(sessions[id]);
        sessions == old(sessions) && s.recv == old(s.recv) && s.credit == Topped(old(s.credit), f.credits)
      ensures id in old(sessions) && !f.Window? && old(|sessions[id].recv|) < RECV_CAPACITY ==>
        var s := old(sessions[id]);
        sessions == old(sessions) && s.recv == old(s.recv) + [f] && s.credit == old(s.credit)
      ensures id in old(sessions) && !f.Window? && old(|sessions[id].recv|) >= RECV_CAPACITY ==>
        id !in sessions && old(sessions[id]).done
    {
      if id !in sessions {
        return;
      }
      var s := sessions[id];
      if f.Window? {
        s.loc := s.loc.(q := AddCredit(s.loc.q, f.credits));
        s.AddSendCredit(f.credits);
      } else if |s.recv| < RECV_CAPACITY {
        s.loc := s.loc.(q := s.loc.q.(recv := s.loc.q.recv + [f]));
        s.recv := s.recv + [f];
      } else {
        Kill(s);
      }
    }

    /** dispatch's default branch: the peer overran its window. */
    method Kill(s: Session)
      requires Valid() && s.id in sessions && sessions[s.id] == s
      modifies this`sessions, this`wire, s`done, s`loc
      ensures Valid() && sessions == old(sessions) - {s.id}
      ensures var o := Written(Tried(old(s.Here())), Frame.Error("flow control violation"));
        && s.done && s.loc == o.end.loc.(life := Done)
        && wire == old(wire) + Tag(s.id, o.out)
      ensures wire == old(wire) +
        (if !old(broken) && ValidToken(s.id) then [Tagged(s.id, Frame.Error("flow control violation"))] else [])
    {
      ghost var o := Written(Tried(s.Here()), Frame.Error("flow control violation"));
      Envelope.RecordRoundTrip(s.id, Frame.Error("flow control violation"));
      Envelope.LinkTexts();
      var _ := WriteFrame(s.id, Frame.Error("flow control violation"));
      s.loc := o.end.loc;
      RemoveSession(s.id);
    }

    /** Tear down the connection and every session. */
    method Close()
      requires Valid()
      modifies this`broken, this`sessions, ever`done, ever`loc
      ensures Valid() && broken && sessions == map[]
      ensures forall s <- ever :: s.done
    {
      broken := true;
      var taken := sessions;
      var left := taken.Keys;
      while left != {}
        invariant broken && left <= taken.Keys
        invariant forall s <- ever :: s.link == this && s.Coherent()
        invariant forall id <- taken :: taken[id] in ever && taken[id].id == id
        invariant forall s <- ever :: s.done || (s.id in left && taken[s.id] == s)
        decreases left
      {
        var id :| id in left;
        taken[id].CloseDone();
        left := left - {id};
      }
      sessions := map[];
    }

    /** Session s has been given what came for it, as long as its queue had room. */
    ghost predicate Served(s: Session, b: Base, mine: seq<Frame>)
      reads this, s
    {
      Fits(b, mine) ==> s.id in sessions && sessions[s.id] == s && Given(s.recv, s.credit, b, mine)
    }

    /** Read and dispatch until the input is over, then close; verdicts is what onOpen
        makes of each frame, if it is an open. Every session that is
        registered, or accepted on the way, is given the frames that come for it, in
        order, as long as its queue has room. Once Run has returned, every session that
        was ever registered is done. */
    method Run(input: seq<Tagged>, verdicts: seq<Verdict>)
      requires Valid() && |verdicts| == |input|
      modifies this, ever
      ensures Valid() && broken && sessions == map[]
      ensures old(ever) <= ever
      ensures forall s <- ever :: s.done
      ensures forall id <- old(sessions) ::
        var s, mine := old(sessions[id]), Only(input, id);
        |old(sessions[id].recv)| + |QueuedOnly(mine)| <= RECV_CAPACITY ==>
          && s.recv == old(sessions[id].recv) + QueuedOnly(mine)
          && s.credit == Topped(old(sessions[id].credit), CreditSum(mine))
      ensures forall s <- ever - old(ever) :: exists i: nat ::
        AcceptedAt(input, verdicts, i, s.id)
          && (var mine := Only(input[i + 1..], s.id);
              |QueuedOnly(mine)| <= RECV_CAPACITY ==>
                s.recv == QueuedOnly(mine) && s.credit == Topped(SEND_WINDOW, CreditSum(mine)))
      ensures forall i :: 0 <= i < |input| && AcceptedAt(input, verdicts, i, input[i].id) ==>
        exists s <- ever :: s.id == input[i].id
    {
      ghost var base, served := ReadAll(input, verdicts);
      WhatWasRead(input, verdicts, old(ever), base, served);
      WhatWasAccepted(input, verdicts, old(ever), base, served);
      Close();
    }

    /** The state of the reader at position i of its input: first are the sessions there
        were when it started, base tells what each session had when the reader came to
        know it, and served which session an accepted open has found or made. */
    ghost predicate Reading(input: seq<Tagged>, verdicts: seq<Verdict>, i: nat, first: set<Session>,
                            base: map<Session, Base>, served: seq<Session?>)
      requires |verdicts| == |input| && i <= |input|
      reads this, ever, base.Keys
    {
      && first <= ever && base.Keys <= ever && ever - first <= base.Keys
      && (forall s <- base :: base[s].from <= i && Served(s, base[s], Mine(input, base[s], i, s.id)))
      && (forall s <- ever - first :: KnownFrom(input, verdicts, s.id, base[s]))
      && |served| == i && (forall j :: 0 <= j < i ==> ServedBy(input, verdicts, j, served[j], ever))
    }

    lemma CameFrom(input: seq<Tagged>, verdicts: seq<Verdict>, first: set<Session>, base: map<Session, Base>,
                   served: seq<Session?>, s: Session) returns (i: nat)
      requires |verdicts| == |input| && Reading(input, verdicts, |input|, first, base, served) && s in ever - first
      ensures AcceptedAt(input, verdicts, i, s.id)
      ensures Served(s, Base(i + 1, [], SEND_WINDOW), Only(input[i + 1..], s.id))
    {
      assert KnownFrom(input, verdicts, s.id, base[s]);
      i := base[s].from - 1;
      assert input[i + 1..|input|] == input[i + 1..];
    }

    lemma WhatWasRead(input: seq<Tagged>, verdicts: seq<Verdict>, first: set<Session>, base: map<Session, Base>,
                      served: seq<Session?>)
      requires |verdicts| == |input| && Reading(input, verdicts, |input|, first, base, served)
      ensures forall s <- base :: base[s].from == 0 ==> Served(s, base[s], Only(input, s.id))
      ensures forall s <- ever - first :: exists i: nat ::
        AcceptedAt(input, verdicts, i, s.id) && Served(s, Base(i + 1, [], SEND_WINDOW), Only(input[i + 1..], s.id))
    {
      assert input[0..|input|] == input;
      forall s <- ever - first
        ensures exists i: nat ::
          AcceptedAt(input, verdicts, i, s.id) && Served(s, Base(i + 1, [], SEND_WINDOW), Only(input[i + 1..], s.id))
      {
        var i := CameFrom(input, verdicts, first, base, served, s);
      }
    }

    lemma WhatWasAccepted(input: seq<Tagged>, verdicts: seq<Verdict>, first: set<Session>, base: map<Session, Base>,
                          served: seq<Session?>)
      requires |verdicts| == |input| && Reading(input, verdicts, |input|, first, base, served)
      ensures forall i :: 0 <= i < |input| && AcceptedAt(input, verdicts, i, input[i].id) ==>
        exists s <- ever :: s.id == input[i].id
    {
      forall i | 0 <= i < |input| && AcceptedAt(input, verdicts, i, input[i].id)
        ensures exists s <- ever :: s.id == input[i].id
      {
        assert ServedBy(input, verdicts, i, served[i], ever);
      }
    }

    /** The loop of Run. */
    method ReadAll(input: seq<Tagged>, verdicts: seq<Verdict>)
        returns (ghost base: map<Session, Base>, ghost served: seq<Session?>)
      requires Valid() && |verdicts| == |input|
      modifies this`sessions, this`ever, this`wire, ever
      ensures Valid() && broken == old(broken) && fresh(ever - old(ever))
      ensures Reading(input, verdicts, |input|, old(ever), base, served)
      ensures forall id <- old(sessions) ::
        old(sessions[id]) in base && base[old(sessions[id])] == Base(0, old(sessions[id].recv), old(sessions[id].credit))
    {
      served := [];
      base := map s | s in ever && s.id in sessions && sessions[s.id] == s :: Base(0, s.recv, s.credit);
      for i := 0 to |input|
        invariant Valid() && fresh(ever - old(ever))
        invariant Reading(input, verdicts, i, old(ever), base, served)
        invariant forall id <- old(sessions) ::
          old(sessions[id]) in base && base[old(sessions[id])] == Base(0, old(sessions[id].recv), old(sessions[id].credit))
      {
        base, served := Round(input, verdicts, i, old(ever), base, served);
      }
    }

    method Round(input: seq<Tagged>, verdicts: seq<Verdict>, i: nat, ghost first: set<Session>,
                 ghost base: map<Session, Base>, ghost served: seq<Session?>)
        returns (ghost base': map<Session, Base>, ghost served': seq<Session?>)
      requires Valid() && |verdicts| == |input| && i < |input|
      requires Reading(input, verdicts, i, first, base, served)
      modifies this`sessions, this`ever, this`wire
      modifies set s <- ever | input[i].id in sessions && s == sessions[input[i].id]
      ensures Valid() && fresh(ever - old(ever))
      ensures Reading(input, verdicts, i + 1, first, base', served')
      ensures forall s <- base :: s in base' && base'[s] == base[s]
    {
      base' := ReadOne(input, i, verdicts[i], base);
      forall s <- ever - first
        ensures KnownFrom(input, verdicts, s.id, base'[s])
      {
        if s in old(ever) {
          assert KnownFrom(input, verdicts, s.id, base[s]);
        }
      }
      served' := served + [if AcceptedAt(input, verdicts, i, input[i].id) then sessions[input[i].id] else null];
      forall j | 0 <= j < i + 1
        ensures ServedBy(input, verdicts, j, served'[j], ever)
      {
        if j < i {
          assert ServedBy(input, verdicts, j, served[j], old(ever));
        }
      }
    }

    /** One round of the loop. */
    method ReadOne(input: seq<Tagged>, i: nat, v: Verdict, ghost base: map<Session, Base>)
        returns (ghost next: map<Session, Base>)
      requires Valid() && i < |input| && base.Keys <= ever
      requires forall s <- base :: base[s].from <= i && Served(s, base[s], Mine(input, base[s], i, s.id))
      modifies this`sessions, this`ever, this`wire
      modifies set s <- ever | input[i].id in sessions && s == sessions[input[i].id]
      ensures Valid() && old(ever) <= ever && fresh(ever - old(ever))
      ensures base.Keys <= next.Keys <= ever && ever - old(ever) <= next.Keys
      ensures forall s <- base :: next[s] == base[s]
      ensures input[i].frame.Open? && v.Accept? ==> input[i].id in sessions
      ensures forall s <- ever - old(ever) ::
        next[s] == Base(i + 1, [], SEND_WINDOW) && s.id == input[i].id && input[i].frame.Open? && v.Accept?
      ensures forall s <- next :: next[s].from <= i + 1 && Served(s, next[s], Mine(input, next[s], i + 1, s.id))
    {
      var t := input[i];
      Handle(t, v);
      next := base;
      if ever != old(ever) {
        next := base[sessions[t.id] := Base(i + 1, [], SEND_WINDOW)];
      }
      forall s <- base
        ensures Served(s, base[s], Mine(input, base[s], i + 1, s.id))
      {
        MineNext(input, base[s], i, s.id);
        var mine, f := Mine(input, base[s], i, s.id), if t.id == s.id then Full(t.frame) else Empty;
        PushQueued(mine, f);
        if Fits(base[s], Push(mine, f)) {
          GivenNext(base[s], mine, f, old(s.recv), old(s.credit));
        }
      }
    }

    /** One frame from the wire. */
    method Handle(t: Tagged, v: Verdict)
      requires Valid()
      modifies this`sessions, this`ever, this`wire
      modifies set s <- ever | t.id in sessions && s == sessions[t.id]
      ensures Valid() && old(ever) <= ever && fresh(ever - old(ever))
      ensures ever == old(ever) || (
        && t.frame.Open? && v.Accept? && t.id !in old(sessions)
        && t.id in sessions && ever == old(ever) + {sessions[t.id]} && fresh(sessions[t.id])
        && sessions == old(sessions)[t.id := sessions[t.id]]
        && sessions[t.id].recv == [] && sessions[t.id].credit == SEND_WINDOW)
      ensures t.frame.Open? && v.Accept? && t.id !in old(sessions) ==> ever != old(ever)
      ensures t.frame.Open? && ever == old(ever) ==> sessions == old(sessions)
      ensures forall s <- old(ever) :: t.id != s.id || t.frame.Open? || s.id !in old(sessions) || old(sessions)[s.id] != s ==>
        s.recv == old(s.recv) && s.credit == old(s.credit)
      ensures forall id <- old(sessions) | id != t.id :: id in sessions && sessions[id] == old(sessions[id])
      ensures t.id in old(sessions) && !t.frame.Open? ==>
        var s := old(sessions[t.id]);
        && (t.frame.Window? ==>
              sessions == old(sessions) && s.recv == old(s.recv) && s.credit == Topped(old(s.credit), t.frame.credits))
        && (!t.frame.Window? && |old(s.recv)| < RECV_CAPACITY ==>
              sessions == old(sessions) && s.recv == old(s.recv) + [t.frame] && s.credit == old(s.credit))
    {
      if t.frame.Open? {
        OnOpen(t.id, v);
      } else {
        Dispatch(t.id, t.frame);
      }
    }

    /** An error frame, if the connection takes it. */
    function Answer(id: Id, message: string): seq<Tagged>
      reads this
    {
      if !broken && ValidToken(id) then [Tagged(id, Frame.Error(message))] else []
    }

    method OnOpen(id: Id, v: Verdict)
      requires Valid()
      modifies this`sessions, this`ever, this`wire
      ensures Valid() && old(ever) <= ever && fresh(ever - old(ever))
      ensures !v.Accept? ==> sessions == old(sessions) && ever == old(ever)
      ensures v.Accept? && id !in old(sessions) ==>
        && id in sessions && fresh(sessions[id]) && wire == old(wire)
        && sessions == old(sessions)[id := sessions[id]] && ever == old(ever) + {sessions[id]}
        && sessions[id].recv == [] && sessions[id].credit == SEND_WINDOW
      ensures v.Accept? && id in old(sessions) ==> sessions == old(sessions) && ever == old(ever)
      ensures v.Ignore? ==> wire == old(wire)
      ensures v.Refuse? ==> wire == old(wire) + Answer(id, "route is not configured")
      ensures v.Accept? && id in old(sessions) ==> wire == old(wire) + Answer(id, "session already exists")
    {
      OpenTexts();
      match v {
        case Accept =>
          var s := this.Accept(id);
          if s == null {
            Envelope.RecordRoundTrip(id, Frame.Error("session already exists"));
            var _ := WriteFrame(id, Frame.Error("session already exists"));
          }
        case Refuse =>
          Envelope.RecordRoundTrip(id, Frame.Error("route is not configured"));
          var _ := WriteFrame(id, Frame.Error("route is not configured"));
        case Ignore =>
      }
    }
  }
}
