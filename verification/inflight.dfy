/** Who cleans up after a request at the connector: forward's deferred function, or
    the pump that streams the response body. internal/connector/proxy.go */
module Inflight {

  type Id = string

  /** HandingOver: the pump has been started, streamResponse has not returned. */
  datatype ForwardAt = Forwarding | HandingOver | Streaming | Returned

  /** Canceled: the pump's deferred cancel has run, its untrack has not. */
  datatype PumpAt = NoPump | Pumping | Canceled | Finished

  /** untracked: how often untrack has run; canceled: its context is canceled. */
  datatype Request = Request(forward: ForwardAt, pump: PumpAt, untracked: nat, canceled: bool)

  /** inflight maps a request ID to the request whose context its cancel function
      ends. */
  datatype Proxy = Proxy(inflight: map<Id, Id>, reqs: map<Id, Request>)

  datatype Step =
    | Track(id: Id)
    | StartPump(id: Id)
    | HandOver(id: Id)
    | ForwardReturns(id: Id)
    | PumpCancels(id: Id)
    | PumpUntracks(id: Id)
    | SessionDone(id: Id)      // the watcher of a streamed response cancels
    | Deadline(id: Id)
    | Cancel(id: Id)           // a cancel message for any ID at all

  const START := Proxy(map[], map[])

  predicate Can(s: Proxy, st: Step) {
    match st
    case Track(id) => id !in s.reqs   // IDs are not reused
    case StartPump(id) => id in s.reqs && s.reqs[id].forward.Forwarding?
    case HandOver(id) => id in s.reqs && s.reqs[id].forward.HandingOver?
    case ForwardReturns(id) => id in s.reqs && (s.reqs[id].forward.Forwarding? || s.reqs[id].forward.Streaming?)
    case PumpCancels(id) => id in s.reqs && s.reqs[id].pump.Pumping?
    case PumpUntracks(id) => id in s.reqs && s.reqs[id].pump.Canceled?
    case SessionDone(id) => id in s.reqs && !s.reqs[id].pump.NoPump?
    case Deadline(id) => id in s.reqs && !s.reqs[id].forward.Returned?
    case Cancel(_) => true
  }

  function Canceling(s: Proxy, id: Id): Proxy
    requires id in s.reqs
  {
    s.(reqs := s.reqs[id := s.reqs[id].(canceled := true)])
  }

  /** The function track returned. */
  function Untracking(s: Proxy, id: Id): Proxy
    requires id in s.reqs
  {
    Proxy(s.inflight - {id}, s.reqs[id := s.reqs[id].(untracked := s.reqs[id].untracked + 1)])
  }

  function Do(s: Proxy, st: Step): Proxy
    requires Can(s, st)
  {
    match st
    case Track(id) =>
      Proxy(s.inflight[id := id], s.reqs[id := Request(Forwarding, NoPump, 0, false)])
    case StartPump(id) =>
      s.(reqs := s.reqs[id := s.reqs[id].(forward := HandingOver, pump := Pumping)])
    case HandOver(id) => s.(reqs := s.reqs[id := s.reqs[id].(forward := Streaming)])
    case ForwardReturns(id) =>
      var t := s.(reqs := s.reqs[id := s.reqs[id].(forward := Returned)]);
      if s.reqs[id].forward.Streaming? then t else Untracking(Canceling(t, id), id)
    case PumpCancels(id) =>
      var t := Canceling(s, id);
      t.(reqs := t.reqs[id := t.reqs[id].(pump := Canceled)])
    case PumpUntracks(id) =>
      var t := Untracking(s, id);
      t.(reqs := t.reqs[id := t.reqs[id].(pump := Finished)])
    case SessionDone(id) => Canceling(s, id)
    case Deadline(id) => Canceling(s, id)
    case Cancel(id) =>
      if id in s.inflight && s.inflight[id] in s.reqs then Canceling(s, s.inflight[id]) else s
  }

  predicate CanAll(s: Proxy, run: seq<Step>)
    decreases |run|
  {
    run == [] || (Can(s, run[0]) && CanAll(Do(s, run[0]), run[1..]))
  }

  function DoAll(s: Proxy, run: seq<Step>): Proxy
    requires CanAll(s, run)
    decreases |run|
  {
    if run == [] then s else DoAll(Do(s, run[0]), run[1..])
  }

  /** Whoever owns the request has finished with it. */
  predicate Over(r: Request) {
    if r.pump.NoPump? then r.forward.Returned? else r.pump.Finished?
  }

  predicate Owned(r: Request) {
    && (r.pump.NoPump? ==> r.forward.Forwarding? || r.forward.Returned?)
    && (!r.pump.NoPump? ==> !r.forward.Forwarding?)
    && r.untracked == (if Over(r) then 1 else 0)
    && (Over(r) || r.pump.Canceled? ==> r.canceled)
  }

  predicate Inv(s: Proxy) {
    && (forall id <- s.reqs :: Owned(s.reqs[id]))
    && (forall id <- s.inflight :: id in s.reqs && s.inflight[id] == id)
    && (forall id <- s.reqs :: id in s.inflight <==> !Over(s.reqs[id]))
  }

  lemma StepKeeps(s: Proxy, st: Step)
    requires Inv(s) && Can(s, st)
    ensures Inv(Do(s, st))
  {
  }

  lemma {:induction false} RunKeeps(s: Proxy, run: seq<Step>)
    requires Inv(s) && CanAll(s, run)
    ensures Inv(DoAll(s, run))
    decreases |run|
  {
    if run != [] {
      StepKeeps(s, run[0]);
      RunKeeps(Do(s, run[0]), run[1..]);
    }
  }

  /** Ownership: the requests in flight are exactly those whose forward call, or
      whose pump if there is one, has not finished; and untrack runs once per
      request, never by both. */
  lemma OneOwnerCleansUp(run: seq<Step>)
    requires CanAll(START, run)
    ensures var t := DoAll(START, run);
      && t.inflight.Keys == (set id <- t.reqs | !Over(t.reqs[id]))
      && (forall id <- t.reqs :: t.reqs[id].untracked <= 1 && (t.reqs[id].untracked == 1 <==> Over(t.reqs[id])))
  {
    RunKeeps(START, run);
  }

  predicate OwnStep(st: Step, id: Id) {
    st == StartPump(id) || st == HandOver(id) || st == ForwardReturns(id) || st == PumpCancels(id) || st == PumpUntracks(id)
  }

  /** The steps a request has still to take, at most. */
  function Rank(r: Request): nat {
    (match r.forward
     case Forwarding => 5
     case HandingOver => 2
     case Streaming => 1
     case Returned => 0)
    + (match r.pump
       case NoPump => 0
       case Pumping => 2
       case Canceled => 1
       case Finished => 0)
  }

  lemma OwnStepAdvances(s: Proxy, st: Step, id: Id)
    requires Inv(s) && Can(s, st) && id in s.reqs
    ensures id in Do(s, st).reqs
    ensures OwnStep(st, id) ==> Rank(Do(s, st).reqs[id]) < Rank(s.reqs[id])
    ensures !OwnStep(st, id) ==> Rank(Do(s, st).reqs[id]) == Rank(s.reqs[id])
  {
  }

  lemma OwnStepEnabled(s: Proxy, id: Id)
    requires Inv(s) && id in s.reqs && Rank(s.reqs[id]) > 0
    ensures exists st :: OwnStep(st, id) && Can(s, st)
  {
    var r := s.reqs[id];
    if r.forward.HandingOver? {
      assert OwnStep(HandOver(id), id) && Can(s, HandOver(id));
    } else if !r.forward.Returned? {
      assert OwnStep(ForwardReturns(id), id) && Can(s, ForwardReturns(id));
    } else if r.pump.Pumping? {
      assert OwnStep(PumpCancels(id), id) && Can(s, PumpCancels(id));
    } else {
      assert OwnStep(PumpUntracks(id), id) && Can(s, PumpUntracks(id));
    }
  }

  /** The steps of a run that are a request's own. */
  function OwnSteps(run: seq<Step>, id: Id): nat {
    if run == [] then 0 else (if OwnStep(run[0], id) then 1 else 0) + OwnSteps(run[1..], id)
  }

  lemma {:induction false} OwnStepsBounded(s: Proxy, run: seq<Step>, id: Id)
    requires Inv(s) && CanAll(s, run) && id in s.reqs
    ensures id in DoAll(s, run).reqs
    ensures OwnSteps(run, id) + Rank(DoAll(s, run).reqs[id]) <= Rank(s.reqs[id])
    decreases |run|
  {
    if run != [] {
      StepKeeps(s, run[0]);
      OwnStepAdvances(s, run[0], id);
      OwnStepsBounded(Do(s, run[0]), run[1..], id);
    }
  }

  /** Every request comes to its end: it takes at most five steps of its own, one is
      enabled as long as it has not finished, and when it has, it is no longer in
      flight, was untracked once, and its context is canceled. */
  lemma RequestsFinish(run: seq<Step>, id: Id, rest: seq<Step>)
    requires CanAll(START, run) && Can(DoAll(START, run), Track(id))
    requires CanAll(Do(DoAll(START, run), Track(id)), rest)
    ensures OwnSteps(rest, id) <= 5
    ensures var t := DoAll(Do(DoAll(START, run), Track(id)), rest);
      && id in t.reqs
      && ((exists st :: OwnStep(st, id) && Can(t, st))
          || (id !in t.inflight && t.reqs[id].untracked == 1 && t.reqs[id].canceled))
  {
    RunKeeps(START, run);
    var s := Do(DoAll(START, run), Track(id));
    StepKeeps(DoAll(START, run), Track(id));
    OwnStepsBounded(s, rest, id);
    RunKeeps(s, rest);
    if Rank(DoAll(s, rest).reqs[id]) > 0 {
      OwnStepEnabled(DoAll(s, rest), id);
    }
  }

  /** A request that is over has had its context canceled: nothing of it is left at the
      backend. */
  lemma OverIsCanceled(run: seq<Step>, id: Id)
    requires CanAll(START, run)
    ensures var t := DoAll(START, run); id in t.reqs && Over(t.reqs[id]) ==> t.reqs[id].canceled
  {
    RunKeeps(START, run);
  }

  predicate Cancels(st: Step, id: Id) { st == Deadline(id) || st == SessionDone(id) || st == PumpCancels(id) }

  lemma CanceledStays(s: Proxy, st: Step, id: Id)
    requires Inv(s) && Can(s, st) && id in s.reqs && (s.reqs[id].canceled || Cancels(st, id))
    ensures id in Do(s, st).reqs && Do(s, st).reqs[id].canceled
  {
  }

  lemma {:induction false} CanceledRun(s: Proxy, run: seq<Step>, id: Id)
    requires Inv(s) && CanAll(s, run) && id in s.reqs && s.reqs[id].canceled
    ensures id in DoAll(s, run).reqs && DoAll(s, run).reqs[id].canceled
    decreases |run|
  {
    if run != [] {
      CanceledStays(s, run[0], id);
      StepKeeps(s, run[0]);
      CanceledRun(Do(s, run[0]), run[1..], id);
    }
  }

  /** The deadline of a request, the end of its session, and the end of its pump cancel
      its context, for good. */
  lemma DeadlineAndSessionCancel(run: seq<Step>, st: Step, id: Id, rest: seq<Step>)
    requires CanAll(START, run) && Can(DoAll(START, run), st) && Cancels(st, id)
    requires CanAll(Do(DoAll(START, run), st), rest)
    ensures var t := DoAll(Do(DoAll(START, run), st), rest); id in t.reqs && t.reqs[id].canceled
  {
    RunKeeps(START, run);
    StepKeeps(DoAll(START, run), st);
    CanceledStays(DoAll(START, run), st, id);
    CanceledRun(Do(DoAll(START, run), st), rest, id);
  }

  /** A cancel message reaches the request it names, if that is in flight, and
      touches nothing else. */
  lemma CancelReachesOnlyItsRequest(run: seq<Step>, id: Id)
    requires CanAll(START, run)
    ensures var t := DoAll(START, run); var u := Do(t, Cancel(id));
      && (id in t.reqs && !Over(t.reqs[id]) ==> u.reqs[id].canceled)
      && u.inflight == t.inflight && u.reqs.Keys == t.reqs.Keys
      && (forall other <- t.reqs | other != id || Over(t.reqs[other]) :: u.reqs[other] == t.reqs[other])
  {
    RunKeeps(START, run);
  }
}
