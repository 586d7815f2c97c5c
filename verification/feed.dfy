/** The gRPC observer's queue and its table of started calls.
    internal/grpcobs/observer.go */
module Feed {

  type Bytes = seq<int>

  const FEED_QUEUE_SIZE: nat := 256

  function Flat(q: seq<Bytes>): Bytes {
    if q == [] then [] else q[0] + Flat(q[1..])
  }

  lemma {:induction false} FlatPush(q: seq<Bytes>, b: Bytes)
    ensures Flat(q + [b]) == Flat(q) + b
  {
    if q == [] {
      assert [b][1..] == [] && [b][0] + [] == b;
    } else {
      FlatPush(q[1..], b);
      assert (q + [b])[1..] == q[1..] + [b];
      assert Flat(q + [b]) == q[0] + (Flat(q[1..]) + b);
    }
  }

  /** One direction of one connection. ch, dead: the feed. rest: the chunk its reader
      is at. relayed, given: the bytes put, and those handed to the parser, so far;
      overflowed: what had been relayed when a chunk first found the queue full. */
  datatype State = State(ch: seq<Bytes>, dead: bool, rest: Bytes, relayed: Bytes, overflowed: Bytes, given: Bytes)

  /** put, by the relay; a receive and a copy, by the parser's reader. */
  datatype Step = Put(chunk: Bytes) | Take | Copy(n: nat)

  const START := State([], false, [], [], [], [])

  predicate Can(s: State, st: Step) {
    match st
    case Put(_) => true
    case Take => s.rest == [] && s.ch != []
    case Copy(n) => n <= |s.rest|
  }

  function DoPut(s: State, chunk: Bytes): State {
    var t := s.(relayed := s.relayed + chunk);
    if s.dead then t
    else if |s.ch| < FEED_QUEUE_SIZE then t.(ch := s.ch + [chunk])
    else t.(dead := true, overflowed := s.relayed)
  }

  function Do(s: State, st: Step): State
    requires Can(s, st)
  {
    match st
    case Put(chunk) => DoPut(s, chunk)
    case Take => s.(rest := s.ch[0], ch := s.ch[1..])
    case Copy(n) => s.(given := s.given + s.rest[..n], rest := s.rest[n..])
  }

  predicate CanAll(s: State, run: seq<Step>)
    decreases |run|
  {
    run == [] || (Can(s, run[0]) && CanAll(Do(s, run[0]), run[1..]))
  }

  function DoAll(s: State, run: seq<Step>): State
    requires CanAll(s, run)
    decreases |run|
  {
    if run == [] then s else DoAll(Do(s, run[0]), run[1..])
  }

  /** What went into the queue at all. */
  function Accepted(s: State): Bytes {
    if s.dead then s.overflowed else s.relayed
  }

  predicate Inv(s: State) {
    && |s.ch| <= FEED_QUEUE_SIZE
    && s.given + s.rest + Flat(s.ch) == Accepted(s)
    && Accepted(s) <= s.relayed
  }

  lemma PutKeeps(s: State, chunk: Bytes)
    requires Inv(s)
    ensures Inv(DoPut(s, chunk))
  {
    if !s.dead && |s.ch| < FEED_QUEUE_SIZE {
      FlatPush(s.ch, chunk);
      assert s.given + s.rest + Flat(s.ch) + chunk == s.given + s.rest + (Flat(s.ch) + chunk);
    }
  }

  lemma TakeKeeps(s: State)
    requires Inv(s) && Can(s, Take)
    ensures Inv(Do(s, Take))
  {
    assert s.given + (s.ch[0] + Flat(s.ch[1..])) == s.given + s.ch[0] + Flat(s.ch[1..]);
  }

  lemma CopyKeeps(s: State, n: nat)
    requires Inv(s) && n <= |s.rest|
    ensures Inv(Do(s, Copy(n)))
  {
    assert s.given + s.rest[..n] + s.rest[n..] == s.given + s.rest;
  }

  lemma StepKeeps(s: State, st: Step)
    requires Inv(s) && Can(s, st)
    ensures Inv(Do(s, st))
    ensures s.dead ==> Do(s, st).dead && Accepted(Do(s, st)) == Accepted(s)
  {
    match st
    case Put(chunk) => PutKeeps(s, chunk);
    case Take => TakeKeeps(s);
    case Copy(n) => CopyKeeps(s, n);
  }

  lemma {:induction false} RunKeeps(s: State, run: seq<Step>)
    requires Inv(s) && CanAll(s, run)
    ensures Inv(DoAll(s, run))
    ensures s.dead ==> Accepted(DoAll(s, run)) == Accepted(s)
    decreases |run|
  {
    if run != [] {
      StepKeeps(s, run[0]);
      RunKeeps(Do(s, run[0]), run[1..]);
    }
  }

  /** Gapless: in every interleaving of puts, receives and copies of any size, what
      the parser has been given is a prefix of what was relayed, and together with
      what is still to come it is everything, up to the first overflow. */
  lemma ObserverFeedIsGapless(run: seq<Step>)
    requires CanAll(START, run)
    ensures var t := DoAll(START, run);
      && t.given <= t.relayed
      && t.given + t.rest + Flat(t.ch) == (if t.dead then t.overflowed else t.relayed)
      && (t.dead ==> t.overflowed <= t.relayed)
  {
    RunKeeps(START, run);
  }

  /** Once a chunk has been dropped, nothing put later is ever handed on. */
  lemma NothingAfterOverflow(s: State, run: seq<Step>)
    requires Inv(s) && s.dead && CanAll(s, run)
    ensures DoAll(s, run).given <= s.overflowed
  {
    RunKeeps(s, run);
  }

  // When a chunk is dropped.

  function Puts(run: seq<Step>): nat {
    if run == [] then 0 else Puts(run[..|run| - 1]) + (if run[|run| - 1].Put? then 1 else 0)
  }

  function Takes(run: seq<Step>): nat {
    if run == [] then 0 else Takes(run[..|run| - 1]) + (if run[|run| - 1].Take? then 1 else 0)
  }

  /** Everything the relay has put. */
  function AllPut(run: seq<Step>): Bytes {
    if run == [] then []
    else AllPut(run[..|run| - 1]) + (if run[|run| - 1].Put? then run[|run| - 1].chunk else [])
  }

  /** A put at a moment when FEED_QUEUE_SIZE earlier chunks have not been taken. */
  predicate PutAhead(run: seq<Step>, k: nat) {
    k < |run| && run[k].Put? && Puts(run[..k]) >= Takes(run[..k]) + FEED_QUEUE_SIZE
  }

  lemma {:induction false} RunLonger(s: State, run: seq<Step>)
    requires run != [] && CanAll(s, run)
    ensures var init, last := run[..|run| - 1], run[|run| - 1];
      CanAll(s, init) && Can(DoAll(s, init), last) && DoAll(s, run) == Do(DoAll(s, init), last)
    decreases |run|
  {
    if |run| > 1 {
      RunLonger(Do(s, run[0]), run[1..]);
      assert run[1..][..|run| - 2] == run[..|run| - 1][1..];
    }
  }

  /** The feed goes dead exactly when the relay gets that far ahead of the parser, and
      until then every chunk that was put and not taken is in the queue. */
  lemma {:induction false} DeadExactlyWhenFull(run: seq<Step>)
    requires CanAll(START, run)
    ensures var t := DoAll(START, run);
      && (t.dead <==> exists k: nat :: PutAhead(run, k))
      && (!t.dead ==> |t.ch| == Puts(run) - Takes(run))
      && t.relayed == AllPut(run)
    decreases |run|
  {
    if run != [] {
      var init, last := run[..|run| - 1], run[|run| - 1];
      RunLonger(START, run);
      DeadExactlyWhenFull(init);
      assert forall k: nat :: k < |init| ==> run[..k] == init[..k] && run[k] == init[k];
      assert forall k: nat :: k < |init| ==> (PutAhead(run, k) <==> PutAhead(init, k));
      assert run[..|init|] == init;
      if DoAll(START, run).dead && !DoAll(START, init).dead {
        assert PutAhead(run, |init|);
      }
    }
  }

  /** As long as the puts never lead the takes by more than the queue holds, nothing is
      dropped: the parser has been given, or will be, every byte relayed. */
  lemma NothingDroppedInTime(run: seq<Step>)
    requires CanAll(START, run) && forall k: nat :: !PutAhead(run, k)
    ensures var t := DoAll(START, run); t.given + t.rest + Flat(t.ch) == AllPut(run)
  {
    ObserverFeedIsGapless(run);
    DeadExactlyWhenFull(run);
  }

  /** The copy built-in: as much as fits. */
  method CopyInto(p: array<int>, b: Bytes) returns (n: nat)
    modifies p
    ensures n == (if |b| < p.Length then |b| else p.Length) && p[..n] == b[..n]
  {
    n := if |b| < p.Length then |b| else p.Length;
    for i := 0 to n
      invariant p[..i] == b[..i]
    {
      p[i] := b[i];
    }
  }

  /** The feed and its reader as objects. */
  class Pipe {
    var ch: seq<Bytes>
    var dead: bool
    var rest: Bytes
    ghost var relayed: Bytes
    ghost var overflowed: Bytes
    ghost var given: Bytes

    ghost function View(): State
      reads this
    {
      State(ch, dead, rest, relayed, overflowed, given)
    }

    constructor ()
      ensures View() == START
    {
      ch, dead, rest, relayed, overflowed, given := [], false, [], [], [], [];
    }

    /** The bytes are copied: the caller may reuse its buffer. */
    method Put(p: array<int>, n: nat)
      requires n <= p.Length
      modifies this`ch, this`dead, this`relayed, this`overflowed
      ensures View() == DoPut(old(View()), p[..n])
      ensures dead <==> old(dead) || |old(ch)| >= FEED_QUEUE_SIZE
      ensures ch == if dead then old(ch) else old(ch) + [p[..n]]
    {
      ghost var before := relayed;
      relayed := relayed + p[..n];
      if dead {
        return;
      }
      var buf := p[..n];
      if |ch| < FEED_QUEUE_SIZE {
        ch := ch + [buf];
      } else {
        dead := true;
        overflowed := before;
      }
    }

    /** A read by the parser, at a moment when it does not block: something is
        queued, or the observer is closed. It ends the stream only when the observer
        is closed and everything accepted has been given. */
    method Read(p: array<int>, closed: bool) returns (n: nat, eof: bool)
      requires Inv(View()) && (closed || rest != [] || Flat(ch) != [])
      modifies this`ch, this`rest, this`given, p
      ensures Inv(View()) && n <= p.Length
      ensures given == old(given) + p[..n]
      ensures relayed == old(relayed) && dead == old(dead) && overflowed == old(overflowed)
      ensures eof ==> closed && n == 0 && given == Accepted(View())
      ensures !eof && p.Length > 0 ==> n > 0
    {
      while rest == []
        invariant Inv(View())
        invariant closed || rest != [] || Flat(ch) != []
        invariant given == old(given) && relayed == old(relayed) && dead == old(dead) && overflowed == old(overflowed)
        decreases |ch|, |rest| == 0
      {
        if ch == [] {
          return 0, true;
        }
        rest := ch[0];
        ch := ch[1..];
      }
      n := CopyInto(p, rest);
      CopyKeeps(View(), n);
      given := given + rest[..n];
      rest := rest[n..];
      eof := false;
    }
  }

  // Calls.

  datatype Call = Call(name: string, start: int)

  /** What the two parsers do to the table: a request's headers start a call; a
      grpc-status or a reset ends it. */
  datatype Event = Started(stream: nat, call: Call) | Ended(stream: nat)

  function TableAfter(events: seq<Event>): map<nat, Call> {
    if events == [] then map[]
    else
      var t, e := TableAfter(events[..|events| - 1]), events[|events| - 1];
      if e.Started? then t[e.stream := e.call] else t - {e.stream}
  }

  /** How many calls of a stream have been recorded. */
  function Recorded(events: seq<Event>, stream: nat): nat {
    if events == [] then 0
    else
      var init, e := events[..|events| - 1], events[|events| - 1];
      Recorded(init, stream) + (if e == Ended(stream) && stream in TableAfter(init) then 1 else 0)
  }

  function Starts(events: seq<Event>, stream: nat): nat {
    if events == [] then 0
    else
      var init, e := events[..|events| - 1], events[|events| - 1];
      Starts(init, stream) + (if e.Started? && e.stream == stream then 1 else 0)
  }

  /** Every recorded call uses up one start: on no stream are more calls recorded than
      were started, and a call that is still in the table is not recorded yet. */
  lemma {:induction false} RecordsNeedStarts(events: seq<Event>, stream: nat)
    ensures Recorded(events, stream) + (if stream in TableAfter(events) then 1 else 0) <= Starts(events, stream)
  {
    if events != [] {
      RecordsNeedStarts(events[..|events| - 1], stream);
    }
  }

  /** A started call stays in the table, with its own name and start, until its end is
      seen, and then it is recorded. */
  lemma {:induction false} StartedCallIsRecorded(before: seq<Event>, stream: nat, call: Call, since: seq<Event>)
    requires forall e <- since :: e.stream != stream
    ensures var events := before + [Started(stream, call)] + since;
      && stream in TableAfter(events) && TableAfter(events)[stream] == call
      && Recorded(events + [Ended(stream)], stream) == Recorded(events, stream) + 1
    decreases |since|
  {
    var events := before + [Started(stream, call)] + since;
    assert (events + [Ended(stream)])[..|events|] == events;
    if since == [] {
      assert events[..|events| - 1] == before;
    } else {
      StartedCallIsRecorded(before, stream, call, since[..|since| - 1]);
      assert events[..|events| - 1] == before + [Started(stream, call)] + since[..|since| - 1];
      assert events[|events| - 1] == since[|since| - 1];
    }
  }

  /** The table as an object. */
  class CallTable {
    var table: map<nat, Call>
    ghost var events: seq<Event>

    ghost predicate Valid()
      reads this
    {
      table == TableAfter(events)
    }

    constructor ()
      ensures Valid() && events == []
    {
      table, events := map[], [];
    }

    method Start(stream: nat, call: Call)
      requires Valid()
      modifies this
      ensures Valid() && events == old(events) + [Started(stream, call)]
    {
      table := table[stream := call];
      events := events + [Started(stream, call)];
      assert events[..|events| - 1] == old(events);
    }

    /** finish: the call that ends, if it was known, to be recorded. */
    method Finish(stream: nat) returns (known: bool, call: Call)
      requires Valid()
      modifies this
      ensures Valid() && events == old(events) + [Ended(stream)]
      ensures known == (Recorded(events, stream) == Recorded(old(events), stream) + 1)
      ensures known ==> stream in old(table) && call == old(table)[stream]
    {
      known := stream in table;
      call := if known then table[stream] else Call("", 0);
      table := table - {stream};
      events := events + [Ended(stream)];
      assert events[..|events| - 1] == old(events);
    }
  }
}
