/** The edge's registry of data tunnels. A handler registers its link under a
    connector ID, runs it, and unregisters it; handlers of one connector may
    overlap, and closeAll may come at any time. internal/edge/data.go */
module Registry {

  type Connector = string

  /** Links are named; a handler has one link of its own. */
  type LinkName = nat

  type Table = map<Connector, LinkName>

  /** The critical section of unregister. */
  function Dropped(t: Table, c: Connector, l: LinkName): Table {
    if c in t && t[c] == l then t - {c} else t
  }

  class TunnelRegistry {
    var links: Table

    constructor ()
      ensures links == map[]
    {
      links := map[];
    }

    /** register, up to Unlock: the caller closes old, if there is one. */
    method Register(c: Connector, l: LinkName) returns (hadOld: bool, old': LinkName)
      modifies this
      ensures links == old(links)[c := l]
      ensures hadOld == (c in old(links)) && (hadOld ==> old' == old(links)[c])
    {
      hadOld := c in links;
      old' := if hadOld then links[c] else l;
      links := links[c := l];
    }

    method Unregister(c: Connector, l: LinkName)
      modifies this
      ensures links == Dropped(old(links), c, l)
    {
      if c in links && links[c] == l {
        links := links - {c};
      }
    }

    /** closeAll, up to Unlock: the caller closes what was taken. */
    method TakeAll() returns (taken: Table)
      modifies this
      ensures links == map[] && taken == old(links)
    {
      taken := links;
      links := map[];
    }
  }

  // All handlers at once.

  /** Swapped: inside register, with the old link still to be closed, if any.
      Serving: register has returned. Stopped: Run has returned. */
  datatype Phase = Swapped(hasOld: bool, before: LinkName) | Serving | Stopped | Left

  /** latest: the link registered last, per connector. gone: links that were
      unregistered, or taken by closeAll. taken: links closeAll has still to close. */
  datatype State = State(links: Table, conn: map<LinkName, Connector>, phase: map<LinkName, Phase>,
                         closed: set<LinkName>, taken: set<LinkName>,
                         latest: Table, gone: set<LinkName>)

  datatype Step =
    | Register(l: LinkName, c: Connector)
    | CloseOld(l: LinkName)
    | LinkDies(l: LinkName)
    | RunReturns(l: LinkName)
    | Unregister(l: LinkName)
    | TakeAll
    | CloseTaken(l: LinkName)

  const START := State(map[], map[], map[], {}, {}, map[], {})

  predicate Can(s: State, st: Step) {
    match st
    case Register(l, _) => l !in s.phase
    case CloseOld(l) => l in s.phase && s.phase[l].Swapped?
    case LinkDies(l) => l in s.phase
    case RunReturns(l) => l in s.phase && s.phase[l].Serving?
    case Unregister(l) => l in s.phase && l in s.conn && s.phase[l].Stopped?
    case TakeAll => true
    case CloseTaken(l) => l in s.taken
  }

  function Do(s: State, st: Step): State
    requires Can(s, st)
  {
    match st
    case Register(l, c) =>
      s.(links := s.links[c := l], conn := s.conn[l := c],
         phase := s.phase[l := if c in s.links then Swapped(true, s.links[c]) else Swapped(false, l)],
         latest := s.latest[c := l])
    case CloseOld(l) =>
      s.(phase := s.phase[l := Serving], closed := if s.phase[l].hasOld then s.closed + {s.phase[l].before} else s.closed)
    case LinkDies(l) => s.(closed := s.closed + {l})
    case RunReturns(l) => s.(phase := s.phase[l := Stopped], closed := s.closed + {l})
    case Unregister(l) =>
      s.(links := Dropped(s.links, s.conn[l], l), phase := s.phase[l := Left],
         gone := if s.conn[l] in s.links && s.links[s.conn[l]] == l then s.gone + {l} else s.gone)
    case TakeAll =>
      var all := set c <- s.links :: s.links[c];
      s.(links := map[], taken := s.taken + all, gone := s.gone + all)
    case CloseTaken(l) => s.(taken := s.taken - {l}, closed := s.closed + {l})
  }

  predicate CanAll(s: State, run: seq<Step>)
    decreases |run|
  {
    run == [] || (Can(s, run[0]) && CanAll(Do(s, run[0]), run[1..]))
  }

  function DoAll(s: State, run: seq<Step>): State
    requires CanAll(s, run)
    decreases |run|
  {
    if run == [] then s else DoAll(Do(s, run[0]), run[1..])
  }

  /** The table is the latest registrations, less those that are gone. */
  predicate Current(s: State) {
    && s.conn.Keys == s.phase.Keys
    && (forall c <- s.latest :: s.latest[c] in s.conn && s.conn[s.latest[c]] == c)
    && (forall c <- s.links :: c in s.latest && s.links[c] == s.latest[c] && s.latest[c] !in s.gone)
    && (forall c <- s.latest :: s.latest[c] !in s.gone ==> c in s.links)
    && (forall l <- s.conn :: s.conn[l] in s.latest)
    && s.gone <= s.conn.Keys && s.taken <= s.conn.Keys
  }

  /** The call of register that is about to close l. */
  predicate BeingClosed(s: State, l: LinkName) {
    exists m <- s.phase :: s.phase[m] == Swapped(true, l)
  }

  /** Every link that is no longer in the table is closed, or about to be. */
  predicate Superseded(s: State) {
    && (forall l <- s.phase :: s.phase[l].Stopped? || s.phase[l].Left? ==> l in s.closed)
    && (forall l <- s.conn :: !(s.conn[l] in s.links && s.links[s.conn[l]] == l) ==>
          l in s.closed || l in s.taken || BeingClosed(s, l))
  }

  lemma StepKeepsCurrent(s: State, st: Step)
    requires Current(s) && Can(s, st)
    ensures Current(Do(s, st))
  {
  }

  lemma StepKeepsSuperseded(s: State, st: Step)
    requires Current(s) && Superseded(s) && Can(s, st)
    ensures Superseded(Do(s, st))
  {
    var t := Do(s, st);
    forall l <- t.conn | !(t.conn[l] in t.links && t.links[t.conn[l]] == l)
      ensures l in t.closed || l in t.taken || BeingClosed(t, l)
    {
      if st.Register? && st.c in s.links && s.links[st.c] == l {
        assert t.phase[st.l] == Swapped(true, l);
      } else if l in s.conn && BeingClosed(s, l) {
        var m :| m in s.phase && s.phase[m] == Swapped(true, l);
        if m in t.phase && t.phase[m] == Swapped(true, l) {
          assert BeingClosed(t, l);
        }
      }
    }
  }

  lemma {:induction false} RunKeeps(s: State, run: seq<Step>)
    requires Current(s) && Superseded(s) && CanAll(s, run)
    ensures Current(DoAll(s, run)) && Superseded(DoAll(s, run))
    decreases |run|
  {
    if run != [] {
      StepKeepsCurrent(s, run[0]);
      StepKeepsSuperseded(s, run[0]);
      RunKeeps(Do(s, run[0]), run[1..]);
    }
  }

  /** get returns the link registered last for the connector, or nothing if that one
      was unregistered or dropped: no other handler's unregister takes it away. */
  lemma RegistryIsCurrent(run: seq<Step>, c: Connector)
    requires CanAll(START, run)
    ensures var t := DoAll(START, run);
      && (c in t.links <==> c in t.latest && t.latest[c] !in t.gone)
      && (c in t.links ==> t.links[c] == t.latest[c])
  {
    RunKeeps(START, run);
  }

  predicate Holds(s: State, l: LinkName, c: Connector) { c in s.links && s.links[c] == l }

  /** What takes link l out of the table: its own handler, a newer one, or closeAll. */
  predicate Displaces(st: Step, l: LinkName, c: Connector) {
    st == Unregister(l) || st == TakeAll || (st.Register? && st.c == c)
  }

  lemma OneDisplaces(s: State, st: Step, l: LinkName, c: Connector)
    requires Current(s) && l in s.phase && s.conn[l] == c && Can(s, st)
    ensures Holds(Do(s, st), l, c) <==> Holds(s, l, c) && !Displaces(st, l, c)
  {
  }

  lemma {:induction false} HoldsUntilDisplaced(s: State, rest: seq<Step>, l: LinkName, c: Connector)
    requires Current(s) && l in s.phase && s.conn[l] == c && CanAll(s, rest)
    ensures Holds(DoAll(s, rest), l, c) <==> Holds(s, l, c) && forall i :: 0 <= i < |rest| ==> !Displaces(rest[i], l, c)
    decreases |rest|
  {
    if rest != [] {
      StepKeepsCurrent(s, rest[0]);
      HoldsUntilDisplaced(Do(s, rest[0]), rest[1..], l, c);
      OneDisplaces(s, rest[0], l, c);
      assert forall i :: 0 < i < |rest| ==> rest[i] == rest[1..][i - 1];
    }
  }

  /** A link that was registered is what lookups yield exactly as long as its handler has
      not unregistered it, nobody has registered another for the connector, and closeAll
      has not come: no other handler's unregister takes it away. */
  lemma RegisteredExactlyWhile(run: seq<Step>, l: LinkName, c: Connector, rest: seq<Step>)
    requires CanAll(START, run) && Can(DoAll(START, run), Register(l, c))
    requires CanAll(Do(DoAll(START, run), Register(l, c)), rest)
    ensures Holds(DoAll(Do(DoAll(START, run), Register(l, c)), rest), l, c)
      <==> forall i :: 0 <= i < |rest| ==> !Displaces(rest[i], l, c)
  {
    RunKeeps(START, run);
    StepKeepsCurrent(DoAll(START, run), Register(l, c));
    HoldsUntilDisplaced(Do(DoAll(START, run), Register(l, c)), rest, l, c);
  }

  function Rank(p: Phase): nat {
    match p
    case Swapped(_, _) => 3
    case Serving => 2
    case Stopped => 1
    case Left => 0
  }

  predicate OwnStep(st: Step, l: LinkName) { st == CloseOld(l) || st == RunReturns(l) || st == Unregister(l) }

  /** A handler goes from one phase to the next by its own steps, which close what they
      have to close, and by nothing else; and closeAll has one link less to close. */
  lemma HandlerAdvances(s: State, st: Step, l: LinkName)
    requires Current(s) && Can(s, st) && l in s.phase
    ensures var t := Do(s, st);
      && l in t.phase && Rank(t.phase[l]) == Rank(s.phase[l]) - (if OwnStep(st, l) then 1 else 0)
      && (st == CloseOld(l) && s.phase[l].hasOld ==> s.phase[l].before in t.closed)
      && (st == RunReturns(l) || st == CloseTaken(l) || st == LinkDies(l) ==> l in t.closed && (st.CloseTaken? ==> t.taken == s.taken - {l}))
  {
  }

  /** A link that has been superseded is closed as soon as no register call and no
      closeAll that took it is still on its way to closing it. */
  lemma SupersededIsClosed(run: seq<Step>, l: LinkName)
    requires CanAll(START, run)
    requires var t := DoAll(START, run);
      l in t.conn && t.conn[l] in t.latest && t.latest[t.conn[l]] != l
    ensures var t := DoAll(START, run);
      l in t.closed || l in t.taken || BeingClosed(t, l)
  {
    RunKeeps(START, run);
  }
}
