/**
 The daemon's accept loop (crates/server/src/daemon.rs) with its sessions (daemon/session.rs):
 sessions report over a channel, with any delay, and an idle exit races with connections that
 arrive. A step is an iteration of the loop, or what a session or a client does meanwhile.
 */
module IdleExit {
  import opened Wrappers
  import opened IdleTimer

  // ----- A session's reports

  /** `PhaseGuard`: its drop reports the phase the connection got to, whatever ended it. */
  class PhaseGuard {
    var active: bool
    var sent: seq<ConnEvent>

    constructor ()
      ensures !active && sent == Reports(Hello)
    {
      active, sent := false, [];
    }

    method Activate()
      requires !active && sent == Reports(Hello)
      modifies this
      ensures active && sent == Reports(Active)
    {
      active := true;
      sent := sent + [HelloPassed];
    }

    method Drop()
      requires sent == Reports(if active then Active else Hello)
      modifies this`sent
      ensures sent == Reports(Over(active))
    {
      sent := sent + [if active then Ended else HelloFailed];
    }
  }

  /** `serve_connection`: it ends with the reports of a connection whose hello passed, or did not. */
  method ServeConnection(passes: bool) returns (guard: PhaseGuard)
    ensures fresh(guard) && guard.sent == Reports(Over(passes))
  {
    guard := new PhaseGuard();
    if passes { guard.Activate(); }
    guard.Drop();
  }

  datatype Phase = Hello | Active | Over(passed: bool)

  /** All that a connection in this phase has reported. */
  function Reports(p: Phase): seq<ConnEvent> {
    match p
    case Hello => []
    case Active => [HelloPassed]
    case Over(passed) => if passed then [HelloPassed, Ended] else [HelloFailed]
  }

  // ----- The daemon

  datatype Report = Report(conn: nat, event: ConnEvent)

  /** An idle exit takes the spawn lock, drains the backlog, and then commits or goes on. */
  datatype Mode = Serving | Locked | Drained(waiting: seq<nat>) | Stopped(idle: bool)

  datatype State = State(
    timer: TimerState,
    conns: map<nat, Phase>,
    events: seq<Report>,
    backlog: seq<nat>,
    mode: Mode,
    // history: the connections of which no report, or just the first one, has been taken
    inHello: set<nat>,
    active: set<nat>,
    // history: all that have connected, and those drained that could not be adopted
    arrived: set<nat>,
    refused: set<nat>)

  datatype Step =
    | Arrive(conn: nat)
    | Accept(now: nat)
    | Pass(conn: nat)
    | End(conn: nat)
    | Take(now: nat)
    | InitDone(now: nat)
    | Idle(now: nat)
    | IdleDue(now: nat, lockFree: bool)
    | Drain(took: nat)
    | Decide(now: nat, adoptable: set<nat>)
    | Stop

  function Open(s: State, conn: nat): State {
    s.(timer := Accepted(s.timer), conns := s.conns[conn := Hello], inHello := s.inHello + {conn})
  }

  function OpenAll(s: State, conns: seq<nat>, adoptable: set<nat>): State {
    if conns == [] then s
    else
      var s1 := OpenAll(s, conns[..|conns| - 1], adoptable);
      var c := conns[|conns| - 1];
      if c in adoptable then Open(s1, c) else s1.(refused := s1.refused + {c})
  }

  function TakeReport(s: State): State
    requires s.events != []
  {
    var Report(c, e) := s.events[0];
    s.(timer := Apply(s.timer, e), events := s.events[1..],
       inHello := if e == Ended then s.inHello else s.inHello - {c},
       active := match e
         case HelloPassed => s.active + {c}
         case HelloFailed => s.active
         case Ended => s.active - {c})
  }

  function TakeReports(s: State): State
    decreases |s.events|
  {
    if s.events == [] then s else TakeReports(TakeReport(s))
  }

  /** The end of `begin_shutdown` for an idle exit: it stops, or goes on with what was drained. */
  function Decided(s: State, adoptable: set<nat>): State
    requires s.mode.Drained?
  {
    var s1 := TakeReports(s);
    if s.mode.waiting == [] && ShouldArm(s1.timer.counts) then s1.(mode := Stopped(true))
    else OpenAll(s1, s.mode.waiting, adoptable).(mode := Serving)
  }

  function Rearmed(s: State, now: nat): State {
    if s.mode.Serving? then s.(timer := Update(s.timer, now)) else s
  }

  predicate Enabled(s: State, e: Step) {
    match e
    case Arrive(c) =>
      !s.mode.Stopped? && c !in s.conns && c !in s.backlog && (s.mode.Drained? ==> c !in s.mode.waiting)
    case Pass(c) => !s.mode.Stopped? && c in s.conns && s.conns[c].Hello?
    case End(c) => !s.mode.Stopped? && c in s.conns && !s.conns[c].Over?
    // an accept that fails stops the drain before the backlog is empty
    case Drain(took) => s.mode == Locked && took <= |s.backlog|
    case Decide(_, _) => s.mode.Drained?
    case _ =>
      && s.mode.Serving?
      && match e
         case Accept(_) => s.backlog != []
         case Take(_) => s.events != []
         case InitDone(_) => !s.timer.counts.initOk
         case IdleDue(now, _) => s.timer.deadline.Some? && s.timer.deadline.value <= now
         case _ => true
  }

  function Next(s: State, e: Step): State
    requires Enabled(s, e)
  {
    match e
    case Arrive(c) => s.(backlog := s.backlog + [c], arrived := s.arrived + {c})
    case Accept(now) => Rearmed(Open(s.(backlog := s.backlog[1..]), s.backlog[0]), now)
    case Pass(c) => s.(conns := s.conns[c := Active], events := s.events + [Report(c, HelloPassed)])
    case End(c) =>
      var passed := s.conns[c].Active?;
      s.(conns := s.conns[c := Over(passed)],
         events := s.events + [Report(c, if passed then Ended else HelloFailed)])
    case Take(now) => Rearmed(TakeReport(s), now)
    case InitDone(now) => Rearmed(s.(timer := InitSucceeded(s.timer)), now)
    case Idle(now) => Rearmed(s, now)
    case IdleDue(now, lockFree) =>
      if lockFree then s.(mode := Locked) else Rearmed(s.(timer := Postpone(s.timer, now)), now)
    case Drain(took) => s.(mode := Drained(s.backlog[..took]), backlog := s.backlog[took..])
    case Decide(now, adoptable) => Rearmed(Decided(s, adoptable), now)
    case Stop => s.(mode := Stopped(false))
  }

  function Start(timeout: nat): State {
    State(NewTimer(timeout), map[], [], [], Serving, {}, {}, {}, {})
  }

  predicate Valid(s: State, es: seq<Step>)
    decreases |es|
  {
    es != [] ==> Enabled(s, es[0]) && Valid(Next(s, es[0]), es[1..])
  }

  function Exec(s: State, es: seq<Step>): State
    requires Valid(s, es)
    decreases |es|
  {
    if es == [] then s else Exec(Next(s, es[0]), es[1..])
  }

  // ----- The counters are the connections whose reports are not all taken

  function Of(events: seq<Report>, c: nat): seq<ConnEvent> {
    if events == [] then []
    else Of(events[..|events| - 1], c) +
         if events[|events| - 1].conn == c then [events[|events| - 1].event] else []
  }

  /** What of a connection's reports the loop has taken. */
  function Taken(s: State, c: nat): nat {
    if c in s.inHello then 0 else if c in s.active then 1 else 2
  }

  function Drop<T>(xs: seq<T>, n: nat): seq<T> {
    if n <= |xs| then xs[n..] else []
  }

  ghost predicate Reported(s: State, c: nat) {
    if c in s.conns then
      && Of(s.events, c) == Drop(Reports(s.conns[c]), Taken(s, c))
      && (c in s.active ==> s.conns[c] != Hello && s.conns[c] != Over(false))
      && (c !in s.inHello && c !in s.active ==> s.conns[c].Over?)
    else Of(s.events, c) == []
  }

  /** Accepted by the kernel and not yet by the daemon, in order. */
  function Waiting(s: State): seq<nat> {
    if s.mode.Drained? then s.mode.waiting + s.backlog else s.backlog
  }

  ghost predicate Distinct(conns: seq<nat>) {
    forall i, j :: 0 <= i < j < |conns| ==> conns[i] != conns[j]
  }

  ghost predicate Inv(s: State) {
    && CountsInv(s)
    && (forall c :: Reported(s, c))
    && Distinct(Waiting(s))
    && (forall c :: c in Waiting(s) ==> c !in s.conns)
    && (s.mode in {Locked, Stopped(true)} || s.mode.Drained? ==> ShouldArm(s.timer.counts))
  }

  ghost predicate CountsInv(s: State) {
    && s.timer.counts.inHello == |s.inHello|
    && s.timer.counts.active == |s.active|
    && s.inHello !! s.active
    && s.inHello <= s.conns.Keys
    && s.active <= s.conns.Keys
    && (s.timer.deadline.Some? ==> ShouldArm(s.timer.counts))
  }

  lemma {:induction false} OfConcat(a: seq<Report>, b: seq<Report>, c: nat)
    ensures Of(a + b, c) == Of(a, c) + Of(b, c)
  {
    if b == [] {
      assert a + b == a;
    } else {
      assert (a + b)[..|a + b| - 1] == a + b[..|b| - 1];
      OfConcat(a, b[..|b| - 1], c);
    }
  }

  lemma OfOne(r: Report, c: nat)
    ensures Of([r], c) == if r.conn == c then [r.event] else []
  {
    assert [r][..0] == [];
  }

  lemma OfHead(events: seq<Report>, c: nat)
    requires events != []
    ensures Of(events, c) == (if events[0].conn == c then [events[0].event] else []) + Of(events[1..], c)
  {
    assert events == [events[0]] + events[1..];
    OfConcat([events[0]], events[1..], c);
    OfOne(events[0], c);
  }

  /** The next report says which phase the connection has got to. */
  lemma NextReport(p: Phase, n: nat, e: ConnEvent, rest: seq<ConnEvent>)
    requires Drop(Reports(p), n) == [e] + rest
    ensures rest == Drop(Reports(p), n + 1) && n < 2
    ensures e == HelloPassed ==> n == 0 && p != Hello && p != Over(false)
    ensures e == HelloFailed ==> n == 0 && p == Over(false) && rest == []
    ensures e == Ended ==> n == 1 && p == Over(true) && rest == []
  {
    var reports := Reports(p);
    assert n < |reports| && reports[n] == e;
    assert rest == reports[n..][1..] == reports[n + 1..];
  }

  /** No counter is ever decremented below zero: the report at the head is of a counted connection. */
  lemma HeadIsCounted(s: State)
    requires CountsInv(s) && (forall c :: Reported(s, c)) && s.events != []
    ensures var Report(c, e) := s.events[0];
            if e == Ended then c in s.active && s.timer.counts.active > 0
            else c in s.inHello && s.timer.counts.inHello > 0
    ensures Proper(s.timer, Event(s.events[0].event))
  {
    var Report(c, e) := s.events[0];
    OfHead(s.events, c);
    assert Reported(s, c);
    NextReport(s.conns[c], Taken(s, c), e, Of(s.events[1..], c));
  }

  lemma TakeKeepsReported(s: State, c: nat)
    requires CountsInv(s) && s.events != [] && Reported(s, c)
    ensures Reported(TakeReport(s), c)
  {
    OfHead(s.events, c);
    var Report(conn, e) := s.events[0];
    var rest := Of(s.events[1..], c);
    if conn != c {
      assert rest == Of(s.events, c);
    } else if c in s.conns {
      NextReport(s.conns[c], Taken(s, c), e, rest);
    }
  }

  /** Taking reports keeps all that does not depend on what the loop is doing. */
  ghost predicate Base(s: State) {
    CountsInv(s) && forall c :: Reported(s, c)
  }

  lemma TakeKeeps(s: State)
    requires Base(s) && s.events != []
    ensures Base(TakeReport(s))
  {
    HeadIsCounted(s);
    forall c ensures Reported(TakeReport(s), c) { TakeKeepsReported(s, c); }
  }

  /** While the countdown runs there is nothing to take. */
  lemma NothingToTake(s: State)
    requires Base(s) && ShouldArm(s.timer.counts)
    ensures s.events == [] && forall c :: c in s.conns ==> s.conns[c].Over?
  {
    if s.events != [] { HeadIsCounted(s); }
    forall c | c in s.conns ensures s.conns[c].Over? { assert Reported(s, c); }
  }

  lemma OpenKeeps(s: State, conn: nat)
    requires Base(s) && conn !in s.conns
    ensures Base(Open(s, conn))
  {
    forall c ensures Reported(Open(s, conn), c) {
      assert Reported(s, c);
    }
  }

  lemma {:induction false} OpenAllAdopts(s: State, conns: seq<nat>, adoptable: set<nat>)
    ensures OpenAll(s, conns, adoptable).conns.Keys == s.conns.Keys + set c | c in conns && c in adoptable
    ensures forall c :: c in conns && c in adoptable ==>
              c in OpenAll(s, conns, adoptable).conns && OpenAll(s, conns, adoptable).conns[c] == Hello
  {
    if conns != [] {
      var n := |conns| - 1;
      OpenAllAdopts(s, conns[..n], adoptable);
      assert forall c :: c in conns <==> c in conns[..n] || c == conns[n];
    }
  }

  lemma {:induction false} OpenAllKeeps(s: State, conns: seq<nat>, adoptable: set<nat>)
    requires Base(s) && Distinct(conns)
    requires forall c :: c in conns ==> c !in s.conns
    ensures Base(OpenAll(s, conns, adoptable))
    ensures var s' := OpenAll(s, conns, adoptable); s'.events == s.events && s'.backlog == s.backlog && s'.mode == s.mode
  {
    if conns != [] {
      var n := |conns| - 1;
      OpenAllKeeps(s, conns[..n], adoptable);
      OpenAllAdopts(s, conns[..n], adoptable);
      assert conns[n] !in conns[..n];
      if conns[n] in adoptable {
        OpenKeeps(OpenAll(s, conns[..n], adoptable), conns[n]);
      } else {
        SameReports(OpenAll(s, conns[..n], adoptable), OpenAll(s, conns, adoptable));
      }
    }
  }

  lemma DecidedIs(s: State, adoptable: set<nat>)
    requires Inv(s) && s.mode.Drained?
    ensures Base(s) && s.events == [] && forall c :: c in s.conns ==> s.conns[c].Over?
    ensures Decided(s, adoptable) == if s.mode.waiting == [] then s.(mode := Stopped(true))
                                     else OpenAll(s, s.mode.waiting, adoptable).(mode := Serving)
  {
    NothingToTake(s);
  }

  lemma DistinctParts(a: seq<nat>, b: seq<nat>)
    requires Distinct(a + b)
    ensures Distinct(a) && Distinct(b) && forall c :: c in b ==> c !in a
  {
    assert forall i :: 0 <= i < |a| ==> (a + b)[i] == a[i];
    assert forall i :: 0 <= i < |b| ==> (a + b)[|a| + i] == b[i];
  }

  lemma DecideKeeps(s: State, adoptable: set<nat>)
    requires Inv(s) && s.mode.Drained?
    ensures Inv(Decided(s, adoptable))
  {
    DecidedIs(s, adoptable);
    DistinctParts(s.mode.waiting, s.backlog);
    if s.mode.waiting == [] {
      SameReports(s, Decided(s, adoptable));
    } else {
      OpenAllKeeps(s, s.mode.waiting, adoptable);
      OpenAllAdopts(s, s.mode.waiting, adoptable);
      SameReports(OpenAll(s, s.mode.waiting, adoptable), Decided(s, adoptable));
    }
  }

  /** What a connection has reported is not changed by what the loop does besides. */
  lemma SameReports(s: State, s': State)
    requires forall c :: Reported(s, c)
    requires s'.conns == s.conns && s'.events == s.events && s'.inHello == s.inHello && s'.active == s.active
    ensures forall c :: Reported(s', c)
  {
    forall c ensures Reported(s', c) { assert Reported(s, c); }
  }

  lemma ReportKeeps(s: State, c: nat, phase: Phase, e: ConnEvent)
    requires Base(s) && c in s.conns && Reports(phase) == Reports(s.conns[c]) + [e]
    requires !s.conns[c].Over?
    ensures Base(s.(conns := s.conns[c := phase], events := s.events + [Report(c, e)]))
  {
    var s' := s.(conns := s.conns[c := phase], events := s.events + [Report(c, e)]);
    forall other ensures Reported(s', other) {
      assert Reported(s, other);
      OfConcat(s.events, [Report(c, e)], other);
      OfOne(Report(c, e), other);
    }
  }

  lemma RearmKeeps(s: State, now: nat)
    requires Inv(s)
    ensures Inv(Rearmed(s, now))
  {
    SameReports(s, Rearmed(s, now));
  }

  lemma SessionKeeps(s: State, e: Step)
    requires Inv(s) && Enabled(s, e) && (e.Pass? || e.End?)
    ensures Inv(Next(s, e))
  {
    match e
    case Pass(c) => ReportKeeps(s, c, Active, HelloPassed);
    case End(c) =>
      if s.conns[c].Active? { ReportKeeps(s, c, Over(true), Ended); } else { ReportKeeps(s, c, Over(false), HelloFailed); }
  }

  lemma AcceptKeeps(s: State)
    requires Inv(s) && s.mode.Serving? && s.backlog != []
    ensures Inv(Open(s.(backlog := s.backlog[1..]), s.backlog[0]))
  {
    var s1 := s.(backlog := s.backlog[1..]);
    SameReports(s, s1);
    OpenKeeps(s1, s.backlog[0]);
  }

  lemma LoopKeeps(s: State, e: Step)
    requires Inv(s) && Enabled(s, e) && (e.Accept? || e.Take? || e.InitDone? || e.Idle?)
    ensures Inv(Next(s, e))
  {
    match e
    case Accept(now) =>
      AcceptKeeps(s);
      RearmKeeps(Open(s.(backlog := s.backlog[1..]), s.backlog[0]), now);
    case Take(now) =>
      TakeKeeps(s);
      RearmKeeps(TakeReport(s), now);
    case InitDone(now) =>
      SameReports(s, s.(timer := InitSucceeded(s.timer)));
      RearmKeeps(s.(timer := InitSucceeded(s.timer)), now);
    case Idle(now) => RearmKeeps(s, now);
  }

  lemma ExitKeeps(s: State, e: Step)
    requires Inv(s) && Enabled(s, e) && (e.IdleDue? || e.Decide? || e.Drain? || e.Arrive? || e.Stop?)
    ensures Inv(Next(s, e))
  {
    match e
    case IdleDue(now, lockFree) =>
      SameReports(s, Next(s, e));
    case Decide(now, adoptable) =>
      DecideKeeps(s, adoptable);
      RearmKeeps(Decided(s, adoptable), now);
    case Drain(took) =>
      SameReports(s, Next(s, e));
      assert Waiting(Next(s, e)) == Waiting(s);
    case Arrive(c) =>
      SameReports(s, Next(s, e));
      assert Waiting(Next(s, e)) == Waiting(s) + [c];
    case Stop => SameReports(s, Next(s, e));
  }

  lemma NextKeeps(s: State, e: Step)
    requires Inv(s) && Enabled(s, e)
    ensures Inv(Next(s, e))
  {
    match e
    case Pass(_) => SessionKeeps(s, e);
    case End(_) => SessionKeeps(s, e);
    case Accept(_) => LoopKeeps(s, e);
    case Take(_) => LoopKeeps(s, e);
    case InitDone(_) => LoopKeeps(s, e);
    case Idle(_) => LoopKeeps(s, e);
    case _ => ExitKeeps(s, e);
  }

  lemma {:induction false} ExecKeeps(s: State, es: seq<Step>)
    requires Inv(s) && Valid(s, es)
    ensures Inv(Exec(s, es))
    decreases |es|
  {
    if es != [] {
      NextKeeps(s, es[0]);
      ExecKeeps(Next(s, es[0]), es[1..]);
    }
  }

  // ----- The promises

  /**
   In every run the two counters are the numbers of connections whose hello, and whose end, is
   not yet processed, and each report that is taken is of a connection counted there: neither
   counter is ever taken below zero.
   */
  lemma CountersAreExact(timeout: nat, es: seq<Step>)
    requires Valid(Start(timeout), es)
    ensures var s := Exec(Start(timeout), es);
            && s.timer.counts.inHello == |s.inHello| && s.timer.counts.active == |s.active|
            && s.inHello !! s.active
            && (forall c :: c in s.inHello || c in s.active <==>
                  c in s.conns && (!s.conns[c].Over? || Of(s.events, c) != []))
            && (s.events != [] ==> Proper(s.timer, Event(s.events[0].event)))
  {
    ExecKeeps(Start(timeout), es);
    var s := Exec(Start(timeout), es);
    forall c ensures c in s.inHello || c in s.active <==> c in s.conns && (!s.conns[c].Over? || Of(s.events, c) != []) {
      assert Reported(s, c);
    }
    if s.events != [] { HeadIsCounted(s); }
  }

  /**
   An idle exit goes ahead exactly when its drain took nothing, and then every connection that was
   ever accepted has ended and is counted out; otherwise each connection taken that can be adopted
   becomes a session, and those that came later stay queued.
   */
  lemma IdleExitIsSafe(timeout: nat, es: seq<Step>, now: nat, adoptable: set<nat>)
    requires Valid(Start(timeout), es)
    requires Enabled(Exec(Start(timeout), es), Decide(now, adoptable))
    ensures var s := Exec(Start(timeout), es);
            var s' := Next(s, Decide(now, adoptable));
            && (forall c :: c in s.conns ==> s.conns[c].Over?)
            && (s'.mode == Stopped(true) <==> s.mode.waiting == [])
            && (s'.mode == Stopped(true) ==> s'.conns == s.conns && s'.events == [])
            && (s'.mode != Stopped(true) ==>
                  && s'.mode == Serving && s'.backlog == s.backlog
                  && forall c :: c in s.mode.waiting && c in adoptable ==> c in s'.conns && s'.conns[c] == Hello)
  {
    ExecKeeps(Start(timeout), es);
    var s := Exec(Start(timeout), es);
    DecidedIs(s, adoptable);
    if s.mode.waiting != [] {
      DistinctParts(s.mode.waiting, s.backlog);
      OpenAllKeeps(s, s.mode.waiting, adoptable);
      OpenAllAdopts(s, s.mode.waiting, adoptable);
    }
  }

  // ----- What the loop keeps between its steps

  /** All that have connected wait, or have been accepted, or could not be adopted. */
  ghost predicate Accounted(s: State) {
    forall c :: c in s.arrived <==> c in s.conns || c in Waiting(s) || c in s.refused
  }

  /** While it serves, the countdown runs just if init has succeeded and no connection is counted. */
  ghost predicate ArmedWhenIdle(s: State) {
    s.mode.Serving? ==> (s.timer.deadline.Some? <==> s.timer.counts.initOk && s.inHello == {} && s.active == {})
  }

  ghost predicate LoopInv(s: State, timeout: nat) {
    Accounted(s) && ArmedWhenIdle(s) && s.timer.timeout == timeout
  }

  lemma {:induction false} OpenAllAccounts(s: State, conns: seq<nat>, adoptable: set<nat>)
    ensures var s' := OpenAll(s, conns, adoptable);
            && (forall c :: c in s'.conns || c in s'.refused <==> c in s.conns || c in s.refused || c in conns)
            && s'.arrived == s.arrived && s'.timer.timeout == s.timer.timeout && s'.timer.counts.initOk == s.timer.counts.initOk
            && s'.backlog == s.backlog
  {
    if conns != [] {
      var n := |conns| - 1;
      OpenAllAccounts(s, conns[..n], adoptable);
      assert conns == conns[..n] + [conns[n]];
    }
  }

  lemma CountsAreEmpty(s: State)
    requires CountsInv(s)
    ensures ShouldArm(s.timer.counts) <==> s.timer.counts.initOk && s.inHello == {} && s.active == {}
  {
  }

  lemma RearmedIsArmed(s: State, now: nat)
    requires CountsInv(s)
    ensures ArmedWhenIdle(Rearmed(s, now))
  {
    CountsAreEmpty(s);
  }

  lemma DecideKeepsLoop(s: State, now: nat, adoptable: set<nat>, timeout: nat)
    requires Inv(s) && LoopInv(s, timeout) && s.mode.Drained?
    ensures LoopInv(Next(s, Decide(now, adoptable)), timeout)
  {
    DecideKeeps(s, adoptable);
    RearmedIsArmed(Decided(s, adoptable), now);
    DecideAccounts(s, adoptable);
  }

  lemma DecideAccounts(s: State, adoptable: set<nat>)
    requires Inv(s) && Accounted(s) && s.mode.Drained?
    ensures Accounted(Decided(s, adoptable)) && Decided(s, adoptable).timer.timeout == s.timer.timeout
  {
    DecidedIs(s, adoptable);
    OpenAllAccounts(s, s.mode.waiting, adoptable);
    assert s.mode.waiting == [] ==> Waiting(s) == s.backlog;
  }

  lemma AcceptKeepsLoop(s: State, now: nat, timeout: nat)
    requires Inv(s) && LoopInv(s, timeout) && Enabled(s, Step.Accept(now))
    ensures LoopInv(Next(s, Step.Accept(now)), timeout)
  {
    var s1 := s.(backlog := s.backlog[1..]);
    SameReports(s, s1);
    OpenKeeps(s1, s.backlog[0]);
    RearmedIsArmed(Open(s1, s.backlog[0]), now);
    assert s.backlog == [s.backlog[0]] + s.backlog[1..];
  }

  lemma QueueKeepsLoop(s: State, e: Step, timeout: nat)
    requires LoopInv(s, timeout) && Enabled(s, e) && (e.Arrive? || e.Drain?)
    ensures LoopInv(Next(s, e), timeout)
  {
    match e
    case Arrive(c) =>
      assert Waiting(Next(s, e)) == Waiting(s) + [c];
    case Drain(took) => assert Waiting(Next(s, e)) == Waiting(s);
  }

  lemma OthersKeepLoop(s: State, e: Step, timeout: nat)
    requires Inv(s) && LoopInv(s, timeout) && Enabled(s, e)
    requires !e.Arrive? && !e.Drain? && !e.Decide? && !e.Accept?
    ensures LoopInv(Next(s, e), timeout)
  {
    match e
    case Take(now) =>
      TakeKeeps(s);
      RearmedIsArmed(TakeReport(s), now);
    case InitDone(now) => RearmedIsArmed(s.(timer := InitSucceeded(s.timer)), now);
    case Idle(now) => RearmedIsArmed(s, now);
    case IdleDue(now, lockFree) =>
      if !lockFree { RearmedIsArmed(s.(timer := Postpone(s.timer, now)), now); }
    case _ =>
  }

  lemma StepKeepsLoop(s: State, e: Step, timeout: nat)
    requires Inv(s) && LoopInv(s, timeout) && Enabled(s, e)
    ensures LoopInv(Next(s, e), timeout)
  {
    match e
    case Arrive(_) => QueueKeepsLoop(s, e, timeout);
    case Drain(_) => QueueKeepsLoop(s, e, timeout);
    case Decide(now, adoptable) => DecideKeepsLoop(s, now, adoptable, timeout);
    case Accept(now) => AcceptKeepsLoop(s, now, timeout);
    case _ => OthersKeepLoop(s, e, timeout);
  }

  lemma {:induction false} ExecKeepsLoop(s: State, es: seq<Step>, timeout: nat)
    requires Inv(s) && LoopInv(s, timeout) && Valid(s, es)
    ensures LoopInv(Exec(s, es), timeout)
    decreases |es|
  {
    if es != [] {
      NextKeeps(s, es[0]);
      StepKeepsLoop(s, es[0], timeout);
      ExecKeepsLoop(Next(s, es[0]), es[1..], timeout);
    }
  }

  /** No connection is ever dropped unseen: each waits, or was accepted, or was drained and could not be adopted. */
  lemma NoConnectionIsDropped(timeout: nat, es: seq<Step>, c: nat)
    requires Valid(Start(timeout), es)
    ensures var s := Exec(Start(timeout), es);
            c in s.arrived <==> c in s.conns || c in Waiting(s) || c in s.refused
  {
    ExecKeepsLoop(Start(timeout), es, timeout);
  }

  lemma {:induction false} InitOkIff(s: State, es: seq<Step>)
    requires Valid(s, es)
    ensures Exec(s, es).timer.counts.initOk <==> s.timer.counts.initOk || exists e :: e in es && e.InitDone?
    decreases |es|
  {
    if es != [] {
      NextInit(s, es[0]);
      InitOkIff(Next(s, es[0]), es[1..]);
      assert es == [es[0]] + es[1..];
    }
  }

  lemma {:induction false} TakeReportsInit(s: State)
    ensures TakeReports(s).timer.counts.initOk == s.timer.counts.initOk
    decreases |s.events|
  {
    if s.events != [] { TakeReportsInit(TakeReport(s)); }
  }

  lemma NextInit(s: State, e: Step)
    requires Enabled(s, e)
    ensures Next(s, e).timer.counts.initOk <==> s.timer.counts.initOk || e.InitDone?
  {
    if e.Decide? {
      TakeReportsInit(s);
      OpenAllAccounts(TakeReports(s), s.mode.waiting, e.adoptable);
    }
  }

  /**
   Over all runs, while the daemon serves its idle deadline is set exactly if init has succeeded and
   every connection accepted so far has ended and is counted out.
   */
  lemma ArmedExactlyWhenIdle(timeout: nat, es: seq<Step>)
    requires Valid(Start(timeout), es) && Exec(Start(timeout), es).mode.Serving?
    ensures var s := Exec(Start(timeout), es);
            s.timer.deadline.Some? <==>
              (exists e :: e in es && e.InitDone?) && forall c :: c in s.conns ==> s.conns[c].Over? && Of(s.events, c) == []
  {
    var s := Exec(Start(timeout), es);
    ExecKeeps(Start(timeout), es);
    ExecKeepsLoop(Start(timeout), es, timeout);
    InitOkIff(Start(timeout), es);
    CountersAreExact(timeout, es);
    if s.inHello == {} && s.active == {} {
      forall c | c in s.conns ensures s.conns[c].Over? && Of(s.events, c) == [] { assert c !in s.inHello; }
    }
    if c :| c in s.inHello + s.active { assert c in s.inHello || c in s.active; }
  }

  /**
   Over all runs, an idle exit ends the daemon only by a decision after a drain that took nothing; it
   drains only when it has the spawn lock, and it asks for the lock only when its deadline is due.
   */
  lemma OnlyADecisionStops(timeout: nat, es: seq<Step>, e: Step)
    requires Valid(Start(timeout), es) && Enabled(Exec(Start(timeout), es), e)
    ensures var s, s' := Exec(Start(timeout), es), Next(Exec(Start(timeout), es), e);
            && (s.mode != Stopped(true) && s'.mode == Stopped(true) <==> e.Decide? && s.mode == Drained([]))
            && (!s.mode.Drained? && s'.mode.Drained? <==> e.Drain? && s.mode == Locked)
            && (s.mode != Locked && s'.mode == Locked <==>
                  e.IdleDue? && e.lockFree && s.mode.Serving? && s.timer.deadline.Some? && s.timer.deadline.value <= e.now)
  {
    var s := Exec(Start(timeout), es);
    ExecKeeps(Start(timeout), es);
    if e.Decide? { DecidedIs(s, e.adoptable); }
  }

  /** An exit that finds the lock busy goes on serving all it has, and is due again a full timeout later. */
  lemma BusyLockPostpones(timeout: nat, es: seq<Step>, now: nat)
    requires Valid(Start(timeout), es) && Enabled(Exec(Start(timeout), es), IdleDue(now, false))
    ensures var s := Exec(Start(timeout), es);
            var s' := Next(s, IdleDue(now, false));
            s' == s.(timer := s'.timer) && s.mode == Serving
            && s'.timer.counts == s.timer.counts && s'.timer.deadline == Some(now + timeout)
  {
    ExecKeeps(Start(timeout), es);
    ExecKeepsLoop(Start(timeout), es, timeout);
    PostponeIs(Exec(Start(timeout), es), now);
  }

  lemma PostponeIs(s: State, now: nat)
    requires CountsInv(s) && Enabled(s, IdleDue(now, false))
    ensures var s' := Next(s, IdleDue(now, false));
            s' == s.(timer := s'.timer) && s'.timer.counts == s.timer.counts && s'.timer.deadline == Some(now + s.timer.timeout)
  {
  }

  // ----- The connections that an exit leaves behind

  /** Between its drain and its decision the loop takes no step; clients and sessions do. */
  lemma {:induction false} BetweenDrainAndDecision(s: State, between: seq<Step>)
    requires s.mode.Drained? && Valid(s, between) && forall e :: e in between ==> !e.Decide?
    ensures Exec(s, between).mode == s.mode
    ensures Exec(s, between).backlog != [] <==> s.backlog != [] || exists e :: e in between && e.Arrive?
    decreases |between|
  {
    if between != [] {
      var s1 := Next(s, between[0]);
      assert between == [between[0]] + between[1..];
      BetweenDrainAndDecision(s1, between[1..]);
      assert s1.backlog != [] <==> s.backlog != [] || between[0].Arrive?;
    }
  }

  /**
   Over all runs, whatever happens between the drain and the decision: the exit leaves a connection
   behind exactly if its drain took nothing, and either an error cut it short or a client has
   connected since.
   */
  lemma ExitLeavesConnectionsIff(timeout: nat, es: seq<Step>, took: nat, between: seq<Step>, now: nat, adoptable: set<nat>)
    requires Valid(Start(timeout), es) && Enabled(Exec(Start(timeout), es), Drain(took))
    requires Valid(Next(Exec(Start(timeout), es), Drain(took)), between) && forall e :: e in between ==> !e.Decide?
    ensures var s := Exec(Start(timeout), es);
            var s1 := Exec(Next(s, Drain(took)), between);
            && Enabled(s1, Decide(now, adoptable))
            && var s2 := Next(s1, Decide(now, adoptable));
               s2.mode == Stopped(true) && s2.backlog != [] <==>
                 took == 0 && (s.backlog != [] || exists e :: e in between && e.Arrive?)
  {
    var s := Exec(Start(timeout), es);
    ExecKeeps(Start(timeout), es);
    NextKeeps(s, Drain(took));
    ExecKeeps(Next(s, Drain(took)), between);
    BetweenDrainAndDecision(Next(s, Drain(took)), between);
    DecidedIs(Exec(Next(s, Drain(took)), between), adoptable);
  }

  ghost predicate Leads(s: State, es: seq<Step>, s': State) {
    Valid(s, es) && Exec(s, es) == s'
  }

  lemma Then(s: State, e: Step, es: seq<Step>, s': State)
    requires Enabled(s, e) && Leads(Next(s, e), es, s')
    ensures Leads(s, [e] + es, s')
  {
    assert ([e] + es)[1..] == es;
  }

  /** A state in which nothing but `backlog` is of interest, with the countdown over. */
  function Due(timeout: nat, backlog: seq<nat>, mode: Mode): State {
    Start(timeout).(
      timer := NewTimer(timeout).(counts := Counts(true, 0, 0), deadline := Some(timeout)), backlog := backlog, mode := mode,
      arrived := if backlog == [] then {} else {1})
  }

  /** An accept that fails cuts the drain short, and the exit leaves the one connection queued. */
  lemma ShortDrainLosesConnection(timeout: nat) returns (es: seq<Step>)
    ensures Leads(Start(timeout), es, Due(timeout, [1], Stopped(true)))
  {
    var last := Due(timeout, [1], Stopped(true));
    es := [Decide(timeout, {})] + [];
    Then(Due(timeout, [1], Drained([])), Decide(timeout, {}), [], last);
    Then(Due(timeout, [1], Locked), Drain(0), es, last);
    es := [Drain(0)] + es;
    Then(Due(timeout, [1], Serving), IdleDue(timeout, true), es, last);
    es := [IdleDue(timeout, true)] + es;
    assert Next(Due(timeout, [], Serving), Arrive(1)) == Due(timeout, [1], Serving);
    Then(Due(timeout, [], Serving), Arrive(1), es, last);
    es := [Arrive(1)] + es;
    Then(Start(timeout), InitDone(0), es, last);
    es := [InitDone(0)] + es;
  }

  /** A client that connects after the drain is left behind too. */
  lemma LateArrivalIsLost(timeout: nat) returns (es: seq<Step>)
    ensures Leads(Start(timeout), es, Due(timeout, [1], Stopped(true)))
    ensures |es| >= 2 && es[|es| - 2..] == [Arrive(1), Decide(timeout, {})]
  {
    var last := Due(timeout, [1], Stopped(true));
    es := [Decide(timeout, {})] + [];
    Then(Due(timeout, [1], Drained([])), Decide(timeout, {}), [], last);
    assert Next(Due(timeout, [], Drained([])), Arrive(1)) == Due(timeout, [1], Drained([]));
    Then(Due(timeout, [], Drained([])), Arrive(1), es, last);
    es := [Arrive(1)] + es;
    Then(Due(timeout, [], Locked), Drain(0), es, last);
    es := [Drain(0)] + es;
    Then(Due(timeout, [], Serving), IdleDue(timeout, true), es, last);
    es := [IdleDue(timeout, true)] + es;
    Then(Start(timeout), InitDone(0), es, last);
    es := [InitDone(0)] + es;
  }
}
