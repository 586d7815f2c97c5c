/** The idle timer of a relay. Times are readings of one clock that does not go
    back; a touch is one step, the check of a fired timer is two: it reads the last
    activity, then the clock. internal/datatunnel/relay.go */
module IdleGuard {

  /** What expired() makes of its two readings: the relay is over, or the timer is
      armed again. */
  datatype Verdict = Expired | Rearmed(at: int)

  function Judge(timeout: int, seen: int, now: int): Verdict {
    var remaining := timeout - (now - seen);
    if remaining <= 0 then Expired else Rearmed(now + remaining)
  }

  class Guard {
    const timeout: int
    var last: int
    var enabled: bool
    var armed: int   // when the timer fires, if enabled

    constructor (timeout: int, now: int)
      ensures this.timeout == timeout && last == now
      ensures enabled == (timeout > 0) && (enabled ==> armed == last + timeout)
    {
      this.timeout := timeout;
      last := now;
      enabled := timeout > 0;
      armed := now + timeout;
    }

    method Touch(now: int)
      modifies this`last
      ensures last == now
    {
      last := now;
    }

    /** The timer has fired; seen is the value of last that this call has read. */
    method CheckExpired(seen: int, now: int) returns (over: bool)
      requires enabled
      modifies this`armed
      ensures over == Judge(timeout, seen, now).Expired?
      ensures !over ==> armed == Judge(timeout, seen, now).at
      ensures over <==> now >= seen + timeout
      ensures armed == if over then old(armed) else seen + timeout
    {
      var remaining := timeout - (now - seen);
      if remaining <= 0 {
        return true;
      }
      armed := now + remaining;
      over := false;
    }
  }

  /** Checking: the timer has fired and last has been read, at the time since; the
      clock has not. quiet: no touch has come in between. Over: the relay is torn
      down. */
  datatype Phase = Waiting | Checking(seen: int, since: int, quiet: bool) | Over(since: int, quiet: bool)

  datatype State = State(timeout: int, now: int, last: int, armed: int, phase: Phase)

  datatype Step = Tick(d: nat) | Touch | Fire | Decide

  predicate Init(s: State) {
    s.timeout > 0 && s.now == s.last && s.armed == s.last + s.timeout && s.phase.Waiting?
  }

  predicate Can(s: State, st: Step) {
    match st
    case Tick(_) => !s.phase.Over?
    case Touch => !s.phase.Over?
    case Fire => s.phase.Waiting? && s.now >= s.armed
    case Decide => s.phase.Checking?
  }

  function Disturbed(p: Phase): Phase {
    match p
    case Checking(seen, since, _) => Checking(seen, since, false)
    case _ => p
  }

  function Do(s: State, st: Step): State
    requires Can(s, st)
  {
    match st
    case Tick(d) => s.(now := s.now + d)
    case Touch =>
      s.(last := s.now, phase := Disturbed(s.phase))
    case Fire => s.(phase := Checking(s.last, s.now, true))
    case Decide =>
      var Checking(seen, since, quiet) := s.phase;
      var v := Judge(s.timeout, seen, s.now);
      if v.Expired? then s.(phase := Over(since, quiet)) else s.(phase := Waiting, armed := v.at)
  }

  predicate CanAll(s: State, run: seq<Step>)
    decreases |run|
  {
    run == [] || (Can(s, run[0]) && CanAll(Do(s, run[0]), run[1..]))
  }

  function DoAll(s: State, run: seq<Step>): State
    requires CanAll(s, run)
    decreases |run|
  {
    if run == [] then s else DoAll(Do(s, run[0]), run[1..])
  }

  predicate Inv(s: State) {
    && s.last <= s.now && s.timeout > 0
    && s.armed <= s.last + s.timeout
    && (s.phase.Checking? ==>
          && s.phase.seen <= s.last && s.phase.since <= s.now
          && (if s.phase.quiet then s.phase.seen == s.last else s.phase.since <= s.last))
    && (s.phase.Over? ==>
          if s.phase.quiet then s.now - s.last >= s.timeout else s.phase.since <= s.last)
  }

  /** A check that is made a timeout or more after the activity it has read ends the
      relay, however late it comes; any other arms the timer for that moment. */
  lemma LateCheckExpires(s: State)
    requires s.phase.Checking?
    ensures var t := Do(s, Decide);
      && (t.phase.Over? <==> s.now >= s.phase.seen + s.timeout)
      && (t.phase.Over? || (t.phase.Waiting? && t.armed == s.phase.seen + s.timeout && s.now < t.armed))
  {
  }

  lemma {:induction false} RunKeeps(s: State, run: seq<Step>)
    requires Inv(s) && CanAll(s, run)
    ensures Inv(DoAll(s, run))
    decreases |run|
  {
    if run != [] {
      RunKeeps(Do(s, run[0]), run[1..]);
    }
  }

  /** Never late: the timer is armed for no later than a full timeout after the last
      activity. Never early, if nobody touches the guard during the last check: and
      only then, as long as that check takes less than a timeout. */
  lemma IdleGuardIsExact(s: State, run: seq<Step>)
    requires Init(s) && CanAll(s, run)
    ensures var t := DoAll(s, run);
      && t.armed <= t.last + t.timeout
      && (t.phase.Over? && t.phase.quiet ==> t.now - t.last >= t.timeout)
      && (t.phase.Over? && t.now - t.phase.since < t.timeout ==>
            (t.phase.quiet <==> t.now - t.last >= t.timeout))
  {
    RunKeeps(s, run);
  }

  /** The timer is served at once: the clock does not pass the time it is armed for
      before it fires, and does not move during a check. */
  predicate PromptStep(s: State, st: Step) {
    st.Tick? ==> s.phase.Waiting? && s.now + st.d <= s.armed
  }

  predicate Prompt(s: State, run: seq<Step>)
    requires CanAll(s, run)
    decreases |run|
  {
    run == [] || (PromptStep(s, run[0]) && Prompt(Do(s, run[0]), run[1..]))
  }

  predicate PromptInv(s: State) {
    && s.now <= s.armed
    && (s.phase.Checking? ==> s.now == s.armed && (!s.phase.quiet ==> s.now == s.last))
    && (s.phase.Over? ==> s.now == (if s.phase.quiet then s.last + s.timeout else s.last))
  }

  lemma {:induction false} PromptRun(s: State, run: seq<Step>)
    requires Inv(s) && PromptInv(s) && CanAll(s, run) && Prompt(s, run)
    ensures Inv(DoAll(s, run)) && PromptInv(DoAll(s, run))
    decreases |run|
  {
    if run != [] {
      PromptRun(Do(s, run[0]), run[1..]);
    }
  }

  /** With a timer that is served at once, expiry is seen exactly a timeout after the
      last activity, or, if there was activity during the check, exactly at it. */
  lemma PromptExpiryIsExact(s: State, run: seq<Step>)
    requires Init(s) && CanAll(s, run) && Prompt(s, run)
    requires DoAll(s, run).phase.Over?
    ensures var t := DoAll(s, run);
      t.now == t.last + (if t.phase.quiet then t.timeout else 0)
  {
    PromptRun(s, run);
  }

  /** The exception is real: a touch between the two readings goes unseen, and the
      relay is torn down with no idle time at all. */
  lemma TouchDuringCheckIsLost(timeout: int)
    requires timeout > 0
    ensures var s := State(timeout, 0, 0, timeout, Waiting);
      var run := [Tick(timeout), Fire, Touch, Decide];
      Init(s) && CanAll(s, run) && DoAll(s, run) == State(timeout, timeout, timeout, timeout, Over(timeout, false))
  {
    var s := State(timeout, 0, 0, timeout, Waiting);
    var run := [Tick(timeout), Fire, Touch, Decide];
    var s1 := Do(s, run[0]);
    var s2 := Do(s1, Fire);
    var s3 := Do(s2, Touch);
    assert run[1..] == [Fire, Touch, Decide] && run[1..][1..] == [Touch, Decide];
    assert [Touch, Decide][1..] == [Decide] && [Decide][1..] == [];
    assert CanAll(s3, [Decide]) && DoAll(s3, [Decide]) == Do(s3, Decide);
    assert CanAll(s2, [Touch, Decide]) && DoAll(s2, [Touch, Decide]) == Do(s3, Decide);
    assert CanAll(s1, run[1..]) && DoAll(s1, run[1..]) == Do(s3, Decide);
  }
}
