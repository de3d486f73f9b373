/**
 The daemon's idle-exit deadline (crates/server/src/daemon/idle.rs), refined by a timer that
 says outright when the countdown starts. Instants and durations are natural numbers.
 */
module IdleTimer {
  import opened Wrappers

  datatype ConnEvent = HelloPassed | HelloFailed | Ended

  datatype Counts = Counts(initOk: bool, inHello: nat, active: nat)

  datatype TimerState = TimerState(counts: Counts, timeout: nat, deadline: Option<nat>, suspended: Option<nat>)

  predicate ShouldArm(c: Counts) {
    c.initOk && c.inHello == 0 && c.active == 0
  }

  function Decrement(n: nat): nat {
    if n == 0 then 0 else n - 1
  }

  function Count(c: Counts, e: ConnEvent): Counts {
    match e
    case HelloPassed => c.(inHello := Decrement(c.inHello), active := c.active + 1)
    case HelloFailed => c.(inHello := Decrement(c.inHello))
    case Ended => c.(active := Decrement(c.active))
  }

  function Accepted(t: TimerState): TimerState {
    t.(counts := t.counts.(inHello := t.counts.inHello + 1),
       suspended := if t.deadline.Some? then t.deadline else t.suspended,
       deadline := None)
  }

  function Apply(t: TimerState, e: ConnEvent): TimerState {
    t.(counts := Count(t.counts, e), suspended := if e == HelloPassed then None else t.suspended)
  }

  function Update(t: TimerState, now: nat): TimerState {
    if ShouldArm(t.counts) && t.deadline.None? then
      t.(deadline := Some(if t.suspended.Some? then t.suspended.value else now + t.timeout), suspended := None)
    else if !ShouldArm(t.counts) && t.deadline.Some? then t.(deadline := None)
    else t
  }

  function Postpone(t: TimerState, now: nat): TimerState {
    t.(deadline := Some(now + t.timeout))
  }

  function InitSucceeded(t: TimerState): TimerState {
    t.(counts := t.counts.(initOk := true))
  }

  // ----- The object

  class Timer {
    var initOk: bool
    var inHello: nat
    var active: nat
    const timeout: nat
    var deadline: Option<nat>
    var suspended: Option<nat>

    ghost function State(): TimerState
      reads this
    {
      TimerState(Counts(initOk, inHello, active), timeout, deadline, suspended)
    }

    constructor (timeout: nat)
      ensures State() == TimerState(Counts(false, 0, 0), timeout, None, None)
    {
      this.timeout := timeout;
      initOk, inHello, active, deadline, suspended := false, 0, 0, None, None;
    }

    method OnInitSucceeded()
      modifies this`initOk
      ensures State() == InitSucceeded(old(State()))
    {
      initOk := true;
    }

    method OnAccepted()
      modifies this`inHello, this`deadline, this`suspended
      ensures State() == Accepted(old(State()))
    {
      if deadline.Some? {
        suspended := deadline;
        deadline := None;
      }
      inHello := inHello + 1;
    }

    method OnEvent(e: ConnEvent)
      modifies this`inHello, this`active, this`suspended
      ensures State() == Apply(old(State()), e)
    {
      if e == HelloPassed { suspended := None; }
      match e
      case HelloPassed =>
        inHello := Decrement(inHello);
        active := active + 1;
      case HelloFailed => inHello := Decrement(inHello);
      case Ended => active := Decrement(active);
    }

    method Rearm(now: nat)
      modifies this`deadline, this`suspended
      ensures State() == Update(old(State()), now)
    {
      if initOk && inHello == 0 && active == 0 {
        if deadline.None? {
          deadline := Some(if suspended.Some? then suspended.value else now + timeout);
          suspended := None;
        }
      } else {
        deadline := None;
      }
    }

    method PutOff(now: nat)
      modifies this`deadline
      ensures State() == Postpone(old(State()), now)
    {
      deadline := Some(now + timeout);
    }
  }

  // ----- What it is meant to do

  /** The countdown started at `start`; `passed` says that a hello has passed since. */
  datatype Countdown = Countdown(counts: Counts, start: Option<nat>, passed: bool)

  datatype Op = Init | Accept | Event(e: ConnEvent) | Tick(now: nat) | PostponeAt(now: nat)

  /** A fresh start takes the first arming, a passed hello since the last start, or a postpone. */
  function Follow(c: Countdown, op: Op): Countdown {
    match op
    case Init => c.(counts := c.counts.(initOk := true))
    case Accept => c.(counts := c.counts.(inHello := c.counts.inHello + 1))
    case Event(e) => c.(counts := Count(c.counts, e), passed := c.passed || e == HelloPassed)
    case Tick(now) =>
      if ShouldArm(c.counts) && (c.start.None? || c.passed) then c.(start := Some(now), passed := false) else c
    case PostponeAt(now) => c.(start := Some(now), passed := false)
  }

  function Run(t: TimerState, op: Op): TimerState {
    match op
    case Init => InitSucceeded(t)
    case Accept => Accepted(t)
    case Event(e) => Apply(t, e)
    case Tick(now) => Update(t, now)
    case PostponeAt(now) => Postpone(t, now)
  }

  /** The daemon takes only counted events, and postpones only an exit that was due. */
  predicate Proper(t: TimerState, op: Op) {
    match op
    case Event(HelloPassed) => t.counts.inHello > 0
    case Event(HelloFailed) => t.counts.inHello > 0
    case Event(Ended) => t.counts.active > 0
    case PostponeAt(_) => t.deadline.Some?
    case _ => true
  }

  /** The two fields hold between them the countdown's end, unless a fresh start is due. */
  predicate Shows(t: TimerState, c: Countdown) {
    && t.counts == c.counts
    && (t.deadline.Some? ==> ShouldArm(t.counts))
    && (if c.start.None? || c.passed then t.deadline.None? && t.suspended.None?
        else
          var end := Some(c.start.value + t.timeout);
          (t.deadline == end && t.suspended.None?) || (t.deadline.None? && t.suspended == end))
  }

  function RunAll(t: TimerState, ops: seq<Op>): TimerState {
    if ops == [] then t else Run(RunAll(t, ops[..|ops| - 1]), ops[|ops| - 1])
  }

  function FollowAll(c: Countdown, ops: seq<Op>): Countdown {
    if ops == [] then c else Follow(FollowAll(c, ops[..|ops| - 1]), ops[|ops| - 1])
  }

  predicate AllProper(t: TimerState, ops: seq<Op>) {
    ops != [] ==> AllProper(t, ops[..|ops| - 1]) && Proper(RunAll(t, ops[..|ops| - 1]), ops[|ops| - 1])
  }

  const NO_COUNTDOWN := Countdown(Counts(false, 0, 0), None, false)

  function NewTimer(timeout: nat): TimerState {
    TimerState(Counts(false, 0, 0), timeout, None, None)
  }

  lemma StepRefines(t: TimerState, c: Countdown, op: Op)
    requires Shows(t, c) && Proper(t, op)
    ensures Shows(Run(t, op), Follow(c, op)) && Run(t, op).timeout == t.timeout
  {
  }

  lemma {:induction false} TimerRefines(timeout: nat, ops: seq<Op>)
    requires AllProper(NewTimer(timeout), ops)
    ensures Shows(RunAll(NewTimer(timeout), ops), FollowAll(NO_COUNTDOWN, ops))
    ensures RunAll(NewTimer(timeout), ops).timeout == timeout
  {
    if ops != [] {
      var n := |ops| - 1;
      TimerRefines(timeout, ops[..n]);
      StepRefines(RunAll(NewTimer(timeout), ops[..n]), FollowAll(NO_COUNTDOWN, ops[..n]), ops[n]);
    }
  }

  /** Init has succeeded, and no connection is before its hello or past it. */
  predicate Unused(t: TimerState) {
    t.counts.initOk && t.counts.inHello == 0 && t.counts.active == 0
  }

  /**
   After every update the deadline is set exactly when init has succeeded and no connection is
   open, and its value is the last fresh start plus the timeout.
   */
  lemma DeadlineAfterUpdate(timeout: nat, ops: seq<Op>, now: nat)
    requires AllProper(NewTimer(timeout), ops)
    ensures var t, c := RunAll(NewTimer(timeout), ops + [Tick(now)]), FollowAll(NO_COUNTDOWN, ops + [Tick(now)]);
            && (t.deadline.Some? <==> Unused(t))
            && (t.deadline.Some? ==> c.start.Some? && t.deadline.value == c.start.value + timeout)
  {
    assert (ops + [Tick(now)])[..|ops|] == ops;
    TimerRefines(timeout, ops + [Tick(now)]);
  }

  predicate FailedHello(op: Op) {
    op.Accept? || op.Tick? || op == Event(HelloFailed)
  }

  lemma {:induction false} FailedHellosKeepTheCountdown(c: Countdown, ops: seq<Op>)
    requires c.start.Some? && !c.passed && forall op :: op in ops ==> FailedHello(op)
    ensures FollowAll(c, ops).start == c.start && !FollowAll(c, ops).passed
  {
    if ops != [] {
      assert ops[|ops| - 1] in ops;
      FailedHellosKeepTheCountdown(c, ops[..|ops| - 1]);
    }
  }

  lemma {:induction false} FollowAllConcat(c: Countdown, a: seq<Op>, b: seq<Op>)
    ensures FollowAll(c, a + b) == FollowAll(FollowAll(c, a), b)
  {
    if b == [] {
      assert a + b == a;
    } else {
      assert (a + b)[..|a + b| - 1] == a + b[..|b| - 1];
      FollowAllConcat(c, a, b[..|b| - 1]);
    }
  }

  lemma {:induction false} ProperPrefix(t: TimerState, a: seq<Op>, b: seq<Op>)
    requires AllProper(t, a + b)
    ensures AllProper(t, a)
  {
    if b == [] {
      assert a + b == a;
    } else {
      assert (a + b)[..|a + b| - 1] == a + b[..|b| - 1];
      ProperPrefix(t, a, b[..|b| - 1]);
    }
  }

  /** When the exit is due: the deadline, or the one that an accept has suspended. */
  function Due(t: TimerState): Option<nat> {
    if t.deadline.Some? then t.deadline else t.suspended
  }

  /**
   Connections that fail their hello, however they overlap, never move the deadline: after any run
   that has set one, any further accepts, failed hellos and updates, and an update, leave it as it
   was, or unset while a connection is open.
   */
  lemma FailedHellosKeepTheDeadline(timeout: nat, ops: seq<Op>, more: seq<Op>, now: nat)
    requires AllProper(NewTimer(timeout), ops + (more + [Tick(now)]))
    requires Due(RunAll(NewTimer(timeout), ops)).Some? && forall op :: op in more ==> FailedHello(op)
    ensures var t, t' := RunAll(NewTimer(timeout), ops), RunAll(NewTimer(timeout), ops + (more + [Tick(now)]));
            && Due(t') == Due(t)
            && t'.deadline == if Unused(t') then Due(t) else None
  {
    var all := more + [Tick(now)];
    ProperPrefix(NewTimer(timeout), ops, all);
    FailedHellosKeepTheEnd(timeout, ops, all);
    assert ops + all == (ops + more) + [Tick(now)];
    ProperPrefix(NewTimer(timeout), ops + more, [Tick(now)]);
    DeadlineAfterUpdate(timeout, ops + more, now);
  }

  lemma FailedHellosKeepTheEnd(timeout: nat, ops: seq<Op>, more: seq<Op>)
    requires AllProper(NewTimer(timeout), ops) && AllProper(NewTimer(timeout), ops + more)
    requires Due(RunAll(NewTimer(timeout), ops)).Some? && forall op :: op in more ==> FailedHello(op)
    ensures Due(RunAll(NewTimer(timeout), ops + more)) == Due(RunAll(NewTimer(timeout), ops))
  {
    TimerRefines(timeout, ops);
    TimerRefines(timeout, ops + more);
    FollowAllConcat(NO_COUNTDOWN, ops, more);
    FailedHellosKeepTheCountdown(FollowAll(NO_COUNTDOWN, ops), more);
  }

  // ----- The object takes the same steps

  /** One thing that happens to the daemon's timer. */
  method Do(timer: Timer, op: Op)
    modifies timer
    ensures timer.State() == Run(old(timer.State()), op)
  {
    match op
    case Init => timer.OnInitSucceeded();
    case Accept => timer.OnAccepted();
    case Event(e) => timer.OnEvent(e);
    case Tick(now) => timer.Rearm(now);
    case PostponeAt(now) => timer.PutOff(now);
  }
}
