/** The sessions of one link while it is torn down: Open calls, the reader with its
    deferred Close, other callers of Close, and sessions that close, all at once.
    "Deleted from the map" and "done closed" are two steps.
    internal/datatunnel/link.go */
module Teardown {

  type Id = string

  /** An Open call in progress; mine: it was this call that deleted the session. */
  datatype OpenAt = Added | Failing | Leaving(mine: bool)

  /** Run: reading, read failed, connection closed, map swapped, returned. */
  datatype RunAt = Running | Failed | ConnClosed | Swapped | Returned

  /** marking: deleted from the map, done not yet closed. mine: what Run's own Close
      has taken out of the map. */
  datatype Down = Down(registered: set<Id>, ever: set<Id>, marking: set<Id>, done: set<Id>,
                       opens: map<Id, OpenAt>, connClosed: bool, run: RunAt, mine: set<Id>)

  datatype Step =
    | Accept(id: Id)
    | OpenAdd(id: Id)
    | OpenWrite(id: Id, ok: bool)
    | OpenRemove(id: Id)
    | OpenReturn(id: Id)
    | Remove(id: Id)
    | MarkDone(id: Id)
    | CloseConn
    | SwapMap
    | RunFails
    | RunClosesConn
    | RunSwapsMap
    | RunReturns

  const START := Down({}, {}, {}, {}, map[], false, Running, {})

  /** A write on a closed connection fails. IDs are not reused. */
  predicate Can(s: Down, st: Step) {
    match st
    case Accept(id) => s.run.Running? && id !in s.ever
    case OpenAdd(id) => id !in s.ever
    case OpenWrite(id, ok) => id in s.opens && s.opens[id].Added? && (ok ==> !s.connClosed)
    case OpenRemove(id) => id in s.opens && s.opens[id].Failing?
    case OpenReturn(id) => id in s.opens && s.opens[id].Leaving? && (s.opens[id].mine ==> id in s.done)
    case Remove(id) => id in s.registered
    case MarkDone(id) => id in s.marking
    case CloseConn => true
    case SwapMap => s.connClosed
    case RunFails => s.run.Running?
    case RunClosesConn => s.run.Failed?
    case RunSwapsMap => s.run.ConnClosed?
    case RunReturns => s.run.Swapped? && s.mine <= s.done
  }

  function Do(s: Down, st: Step): Down
    requires Can(s, st)
  {
    match st
    case Accept(id) => s.(registered := s.registered + {id}, ever := s.ever + {id})
    case OpenAdd(id) =>
      s.(registered := s.registered + {id}, ever := s.ever + {id}, opens := s.opens[id := Added])
    case OpenWrite(id, ok) =>
      s.(opens := if ok then s.opens - {id} else s.opens[id := Failing])
    case OpenRemove(id) =>
      if id in s.registered then
        s.(registered := s.registered - {id}, marking := s.marking + {id}, opens := s.opens[id := Leaving(true)])
      else s.(opens := s.opens[id := Leaving(false)])
    case OpenReturn(id) => s.(opens := s.opens - {id})
    case Remove(id) => s.(registered := s.registered - {id}, marking := s.marking + {id})
    case MarkDone(id) => s.(marking := s.marking - {id}, done := s.done + {id})
    case CloseConn => s.(connClosed := true)
    case SwapMap => s.(registered := {}, marking := s.marking + s.registered)
    case RunFails => s.(run := Failed)
    case RunClosesConn => s.(connClosed := true, run := ConnClosed)
    case RunSwapsMap =>
      s.(registered := {}, marking := s.marking + s.registered, mine := s.registered, run := Swapped)
    case RunReturns => s.(run := Returned)
  }

  predicate CanAll(s: Down, run: seq<Step>)
    decreases |run|
  {
    run == [] || (Can(s, run[0]) && CanAll(Do(s, run[0]), run[1..]))
  }

  function DoAll(s: Down, run: seq<Step>): Down
    requires CanAll(s, run)
    decreases |run|
  {
    if run == [] then s else DoAll(Do(s, run[0]), run[1..])
  }

  /** Every session ever registered is in exactly one place. */
  predicate Partitioned(s: Down) {
    && s.ever == s.registered + s.marking + s.done
    && s.registered !! s.marking !! s.done
    && s.opens.Keys <= s.ever
  }

  /** Once Run has swapped the map, only Open calls that will fail put sessions back. */
  predicate Draining(s: Down) {
    && (s.run.ConnClosed? || s.run.Swapped? || s.run.Returned? ==> s.connClosed)
    && (forall id <- s.opens :: s.opens[id].Leaving? ==> id !in s.registered && id in s.marking + s.done)
    && (s.run.Swapped? || s.run.Returned? ==> s.registered <= s.opens.Keys)
    && s.mine <= s.marking + s.done
    && (s.run.Returned? ==> s.mine <= s.done)
  }

  lemma StepKeeps(s: Down, st: Step)
    requires Partitioned(s) && Draining(s) && Can(s, st)
    ensures Partitioned(Do(s, st)) && Draining(Do(s, st))
  {
  }

  lemma {:induction false} RunKeeps(s: Down, run: seq<Step>)
    requires Partitioned(s) && Draining(s) && CanAll(s, run)
    ensures Partitioned(DoAll(s, run)) && Draining(DoAll(s, run))
    decreases |run|
  {
    if run != [] {
      StepKeeps(s, run[0]);
      RunKeeps(Do(s, run[0]), run[1..]);
    }
  }

  /** A closed done implies that the session is absent from the map, in every
      reachable state. */
  lemma DoneIsAbsent(run: seq<Step>, id: Id)
    requires CanAll(START, run) && id in DoAll(START, run).done
    ensures id !in DoAll(START, run).registered
  {
    RunKeeps(START, run);
  }

  /** No session leaks: once Run has returned and the Open calls in progress have
      returned, the map is empty, and every session ever registered is done or
      about to be marked done by whoever took it out of the map. */
  lemma NothingLeaks(run: seq<Step>)
    requires CanAll(START, run)
    requires DoAll(START, run).run.Returned? && DoAll(START, run).opens == map[]
    ensures var t := DoAll(START, run);
      && t.registered == {}
      && t.ever == t.marking + t.done
      && (t.marking == {} ==> t.done == t.ever)
  {
    RunKeeps(START, run);
  }

  /** A session is known from the moment it is accepted or added. */
  lemma {:induction false} EverIsWhatCame(s: Down, run: seq<Step>, id: Id)
    requires CanAll(s, run)
    ensures id in DoAll(s, run).ever <==> id in s.ever || Accept(id) in run || OpenAdd(id) in run
    decreases |run|
  {
    if run != [] {
      EverIsWhatCame(Do(s, run[0]), run[1..], id);
      assert forall st :: st in run <==> st == run[0] || st in run[1..];
    }
  }

  /** And once it has been removed it is out of the map for good. */
  lemma {:induction false} RemovedStaysOut(s: Down, run: seq<Step>, id: Id)
    requires Partitioned(s) && Draining(s) && CanAll(s, run)
    requires id in s.marking + s.done || Remove(id) in run || OpenRemove(id) in run
    ensures id in DoAll(s, run).marking + DoAll(s, run).done
    decreases |run|
  {
    if run != [] {
      StepKeeps(s, run[0]);
      assert forall st :: st in run <==> st == run[0] || st in run[1..];
      RemovedStaysOut(Do(s, run[0]), run[1..], id);
    }
  }

  /** Every session that was accepted or added, and only those, is in the map or out of
      it; and one that was removed, by its users or by an Open that failed, is out. */
  lemma RegisteredUntilRemoved(run: seq<Step>, id: Id)
    requires CanAll(START, run)
    ensures var t := DoAll(START, run);
      && (Accept(id) in run || OpenAdd(id) in run <==> id in t.registered + t.marking + t.done)
      && (Remove(id) in run || OpenRemove(id) in run ==> id !in t.registered)
  {
    RunKeeps(START, run);
    EverIsWhatCame(START, run, id);
    if Remove(id) in run || OpenRemove(id) in run {
      RemovedStaysOut(START, run, id);
    }
  }

  lemma {:induction false} StaysClosed(s: Down, rest: seq<Step>)
    requires s.connClosed && CanAll(s, rest)
    ensures forall i :: 0 <= i < |rest| && rest[i].OpenWrite? ==> !rest[i].ok
    decreases |rest|
  {
    if rest != [] {
      StaysClosed(Do(s, rest[0]), rest[1..]);
    }
  }

  lemma {:induction false} MineStays(s: Down, rest: seq<Step>)
    requires (s.run.Swapped? || s.run.Returned?) && CanAll(s, rest)
    ensures DoAll(s, rest).mine == s.mine
    decreases |rest|
  {
    if rest != [] {
      MineStays(Do(s, rest[0]), rest[1..]);
    }
  }

  /** Close is final, whether Run or somebody else calls it: once the connection is
      closed no Open succeeds any more, and the sessions that were registered when the
      map was swapped never come back; and Run returns only when those it has swapped out
      itself are done. */
  lemma CloseIsFinal(run: seq<Step>, st: Step, rest: seq<Step>, id: Id)
    requires CanAll(START, run) && Can(DoAll(START, run), st) && CanAll(Do(DoAll(START, run), st), rest)
    ensures st.CloseConn? || st.RunClosesConn? ==>
      forall i :: 0 <= i < |rest| && rest[i].OpenWrite? ==> !rest[i].ok
    ensures (st.SwapMap? || st.RunSwapsMap?) && id in DoAll(START, run).registered ==>
      id !in DoAll(Do(DoAll(START, run), st), rest).registered
    ensures st.RunSwapsMap? && id in DoAll(START, run).registered ==>
      var u := DoAll(Do(DoAll(START, run), st), rest); u.run.Returned? ==> id in u.done
  {
    var s := DoAll(START, run);
    var t := Do(s, st);
    RunKeeps(START, run);
    StepKeeps(s, st);
    RunKeeps(t, rest);
    if st.CloseConn? || st.RunClosesConn? {
      StaysClosed(t, rest);
    }
    if (st.SwapMap? || st.RunSwapsMap?) && id in s.registered {
      RemovedStaysOut(t, rest, id);
    }
    if st.RunSwapsMap? {
      MineStays(t, rest);
    }
  }

  // It comes to that.

  /** What the goroutines do that still have work when the connection has failed. */
  predicate Finishing(st: Step) {
    || st.OpenWrite? || st.OpenRemove? || st.OpenReturn? || st.MarkDone?
    || st.RunClosesConn? || st.RunSwapsMap? || st.RunReturns?
  }

  function AddedOpens(s: Down): set<Id> { set id | id in s.opens && s.opens[id].Added? }

  function FailingOpens(s: Down): set<Id> { set id | id in s.opens && s.opens[id].Failing? }

  function LeavingOpens(s: Down): set<Id> { set id | id in s.opens && s.opens[id].Leaving? }

  function RunRank(r: RunAt): nat {
    match r
    case Running => 4
    case Failed => 3
    case ConnClosed => 2
    case Swapped => 1
    case Returned => 0
  }

  /** An Open that fails takes three steps; every session is marked once. */
  function Remaining(s: Down): nat {
    3 * |AddedOpens(s)| + 2 * |FailingOpens(s)| + |LeavingOpens(s)| + |s.registered| + |s.marking| + RunRank(s.run)
  }

  lemma WriteMoves(s: Down, id: Id, ok: bool)
    requires Can(s, OpenWrite(id, ok))
    ensures var t := Do(s, OpenWrite(id, ok));
      && AddedOpens(t) == AddedOpens(s) - {id}
      && FailingOpens(t) == (if ok then FailingOpens(s) else FailingOpens(s) + {id})
      && LeavingOpens(t) == LeavingOpens(s)
  {
  }

  lemma WriteReturns(s: Down, id: Id, ok: bool)
    requires Can(s, OpenWrite(id, ok))
    ensures Remaining(Do(s, OpenWrite(id, ok))) < Remaining(s)
  {
    WriteMoves(s, id, ok);
    assert id in AddedOpens(s);
    Moved(AddedOpens(s), FailingOpens(s), id);
  }

  lemma Moved(from: set<Id>, to: set<Id>, id: Id)
    requires id in from
    ensures |from - {id}| == |from| - 1 && |to + {id}| <= |to| + 1
  {
    if id in to {
      assert to + {id} == to;
    }
  }

  lemma RemoveMoves(s: Down, id: Id)
    requires id in s.opens && s.opens[id].Failing?
    ensures var t := Do(s, OpenRemove(id));
      && AddedOpens(t) == AddedOpens(s)
      && FailingOpens(t) == FailingOpens(s) - {id} && LeavingOpens(t) == LeavingOpens(s) + {id}
  {
  }

  lemma OpenGivesUp(s: Down, id: Id)
    requires id in s.opens && s.opens[id].Failing?
    ensures Remaining(Do(s, OpenRemove(id))) < Remaining(s)
  {
    RemoveMoves(s, id);
    assert id in FailingOpens(s);
    Moved(FailingOpens(s), LeavingOpens(s), id);
    if id in s.registered {
      Moved(s.registered, s.marking, id);
    }
  }

  lemma OpenReturns(s: Down, id: Id)
    requires Can(s, OpenReturn(id))
    ensures Remaining(Do(s, OpenReturn(id))) < Remaining(s)
  {
    var t := Do(s, OpenReturn(id));
    assert LeavingOpens(t) == LeavingOpens(s) - {id};
    assert AddedOpens(t) == AddedOpens(s) && FailingOpens(t) == FailingOpens(s);
  }

  /** A step that leaves the Open calls alone. */
  lemma OpensStay(s: Down, t: Down)
    requires t.opens == s.opens
    ensures AddedOpens(t) == AddedOpens(s) && FailingOpens(t) == FailingOpens(s) && LeavingOpens(t) == LeavingOpens(s)
  {
  }

  lemma FinishingAdvances(s: Down, st: Step)
    requires Partitioned(s) && !s.run.Running? && Can(s, st) && Finishing(st)
    ensures Remaining(Do(s, st)) < Remaining(s) && !Do(s, st).run.Running?
  {
    match st
    case OpenWrite(id, ok) => WriteReturns(s, id, ok);
    case OpenRemove(id) => OpenGivesUp(s, id);
    case OpenReturn(id) => OpenReturns(s, id);
    case MarkDone(id) => OpensStay(s, Do(s, st));
    case RunClosesConn => OpensStay(s, Do(s, st));
    case RunSwapsMap => OpensStay(s, Do(s, st));
    case RunReturns => OpensStay(s, Do(s, st));
  }

  /** As long as Run or an Open is in progress or a session is to be marked, somebody
      can go on. */
  lemma FinishingGoesOn(t: Down) returns (st: Step)
    requires Draining(t) && !t.run.Running? && (!t.run.Returned? || t.opens != map[] || t.marking != {})
    ensures Can(t, st) && Finishing(st)
  {
    if t.marking != {} {
      var id :| id in t.marking;
      st := MarkDone(id);
    } else if !t.run.Returned? {
      st := if t.run.Failed? then RunClosesConn else if t.run.ConnClosed? then RunSwapsMap else RunReturns;
    } else {
      assert t.opens.Keys != {};
      var id :| id in t.opens.Keys;
      match t.opens[id]
      case Added => st := OpenWrite(id, false);
      case Failing => st := OpenRemove(id);
      case Leaving(_) => st := OpenReturn(id);
    }
  }

  lemma {:induction false} FinishingRun(s: Down, rest: seq<Step>)
    requires Partitioned(s) && Draining(s) && !s.run.Running?
    requires CanAll(s, rest) && forall i :: 0 <= i < |rest| ==> Finishing(rest[i])
    ensures |rest| + Remaining(DoAll(s, rest)) <= Remaining(s)
    ensures Partitioned(DoAll(s, rest)) && Draining(DoAll(s, rest)) && !DoAll(s, rest).run.Running?
    decreases |rest|
  {
    if rest != [] {
      StepKeeps(s, rest[0]);
      FinishingAdvances(s, rest[0]);
      FinishingRun(Do(s, rest[0]), rest[1..]);
    }
  }

  lemma {:induction false} FailsForGood(s: Down, run: seq<Step>)
    requires CanAll(s, run) && (!s.run.Running? || RunFails in run)
    ensures !DoAll(s, run).run.Running?
    decreases |run|
  {
    if run != [] {
      assert forall st :: st in run <==> st == run[0] || st in run[1..];
      FailsForGood(Do(s, run[0]), run[1..]);
    }
  }

  ghost predicate Finished(s: Down) {
    forall st: Step :: Finishing(st) ==> !Can(s, st)
  }

  /** Teardown ends: once the connection has failed under Run, the rest of Run, the Open
      calls in progress and the marking take no more than a number of steps that is known
      by then, and when there is nothing left to do Run has returned, and every session
      ever registered is done. */
  lemma TeardownEnds(run: seq<Step>, rest: seq<Step>)
    requires CanAll(START, run) && RunFails in run
    requires CanAll(DoAll(START, run), rest) && forall i :: 0 <= i < |rest| ==> Finishing(rest[i])
    ensures |rest| <= Remaining(DoAll(START, run))
    ensures var u := DoAll(DoAll(START, run), rest);
      Finished(u) ==> u.run.Returned? && u.opens == map[] && u.registered == {} && u.done == u.ever
  {
    RunKeeps(START, run);
    FailsForGood(START, run);
    FinishingRun(DoAll(START, run), rest);
    var u := DoAll(DoAll(START, run), rest);
    if Finished(u) && (!u.run.Returned? || u.opens != map[] || u.marking != {}) {
      var st := FinishingGoesOn(u);
      assert false;
    }
  }
}
