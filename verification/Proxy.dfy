/**
 The proxy's reconnect machine (crates/server/src/proxy.rs and proxy/reconnect.rs) as a
 transition system: a step is what happens between two awaits of the main loop, of the pump task
 that forwards daemon lines, or of the daemon. Nondeterminism (which task runs, what fails, in
 what order a hash map drains) is carried by the events.
 */
module Proxy {
  import opened Wrappers
  import opened Track

  const MAX_ATTEMPTS: nat := 3

  datatype AfterHello = ReplayDrop | ReplayForward | ResendKept | Nothing

  datatype ResendPending = ResendPending(generation: nat, attemptsUsed: nat)

  /** What stdout carries that matters here: a daemon's line, or an error the proxy makes up. */
  datatype Out = DaemonLine(line: Line) | OwnError(id: Id)

  /** How far an attempt of a round has got. */
  datatype Stage =
    | Connecting
    | WriteKept(kept: KeptRequest)
    | AwaitForward(forwardId: Id)
    | WriteInitialize(initLine: Line, cached: Option<Line>)
    | AwaitReplay(replayId: Id, cached: Option<Line>)
    | WriteInitialized(line: Line)

  /** Where the main loop is: `Flush`, `Forward`, `Writing` and `Drain` are inside `Connected`. */
  datatype Pc =
    | Flush
    | Forward
    | Writing(line: Line)
    | Drain
    | Losing
    | Disconnected
    | Round(after: AfterHello, attempts: nat, stage: Stage)
    | Exited(code: nat)

  datatype State = State(
    // the proxy's own fields
    t: TrackerState,
    pc: Pc,
    queue: seq<Line>,
    pending: Option<ResendPending>,
    held: Option<Line>,
    out: seq<Out>,
    // the daemon at the other end of the current connection
    owed: set<Id>,
    wire: seq<Line>,
    // history, read by no step
    arrived: seq<Line>,
    base: nat,
    skipped: set<nat>,
    errored: set<nat>,
    resent: multiset<nat>,
    via: AfterHello,
    prefix: seq<Line>,
    sent: seq<Line>,
    firstReplay: Option<nat>,
    readAt: nat,
    replies: seq<Line>,  // what the round has read from the current connection
    taken: seq<Line>)    // what was read from daemons to be put on stdout

  /** Start-up is a round like any other, but with the link nominally up. */
  const START := State(
    EMPTY_TRACKER, Round(Nothing, 1, Connecting), [], None, None, [], {}, [],
    [], 0, {}, {}, multiset{}, Nothing, [], [], None, 0, [], [])

  datatype Event =
    // the client
    | Client(line: Line)
    | Eof
    // the daemon
    | DaemonAnswer(id: Id, ok: bool)
    | DaemonOther(line: Line)
    // the pump task
    | PumpRead
    | PumpDeliver
    // the main loop while connected
    | FlushWrite(ok: bool)
    | FlushDone
    | WriteDone(ok: bool)
    | Lost
    | LossDone(order: seq<Id>)
    | Exit
    // the main loop in a round
    | ConnectOk(order: seq<Id>)
    | AttemptFail(retryable: bool, order: seq<Id>)
    | RoundWrite
    | RoundRead(order: seq<Id>)

  // ----- Steps of the proxy

  function Answer(ids: seq<Id>): seq<Out> {
    if ids == [] then [] else [OwnError(ids[0])] + Answer(ids[1..])
  }

  /** The client lines whose requests are in flight, apart from `keep`'s. */
  function PlacesBut(m: map<Id, InFlight>, keep: Option<Id>): set<nat> {
    set id | id in m && id !in Keep(keep) :: m[id].at
  }

  /** Answers all requests in flight but `keep`'s with the proxy's own error. */
  function FailInFlight(s: State, keep: Option<Id>, order: seq<Id>): State {
    s.(t := s.t.(inFlight := Only(s.t.inFlight, keep)),
       out := s.out + Answer(order),
       errored := s.errored + PlacesBut(s.t.inFlight, keep))
  }

  function AttemptsCarried(pending: Option<ResendPending>, t: TrackerState): nat {
    if pending.Some? && KeptInFlight(t).Some? && KeptInFlight(t).value.generation == pending.value.generation
    then pending.value.attemptsUsed
    else 0
  }

  function NoConnection(s: State): State {
    s.(owed := {}, wire := [], prefix := [], sent := [], replies := [])
  }

  /** Enters a round with `used` attempts spent: its first attempt is already counted. */
  function StartRound(s: State, after: AfterHello, used: nat, base: nat): State {
    NoConnection(s).(pc := Round(after, used + 1, Connecting), base := base, via := after,
                     firstReplay := None, readAt := 0)
  }

  /** `Proxy::connected`: the link is up and a pump reads from here on. */
  function Connected(s: State): State {
    s.(t := SetLink(s.t, Up), pc := Flush)
  }

  function Deliver(s: State, line: Line): State {
    s.(t := OnDaemonLine(s.t, line), out := s.out + [DaemonLine(line)])
  }

  /** The part of `on_loss` before the in-flight requests are answered. */
  function Unplug(s: State): State {
    var s1 := if s.held.Some? then Deliver(s, s.held.value).(held := None) else s;
    s1.(queue := [], pending := None, t := SetLink(s1.t, Down))
  }

  function Kept(t: TrackerState): Option<Id> {
    if KeptInFlight(t).Some? then Some(KeptInFlight(t).value.id) else None
  }

  /** `on_daemon_loss` and what `on_loss` makes of it; `order` is how the in-flight table drains. */
  function AnswerLoss(s: State, used: nat, order: seq<Id>): State {
    var s1 := FailInFlight(s, Kept(s.t), order).(base := |s.arrived|);
    match KeptInFlight(s.t)
    case None => NoConnection(s1).(pc := Disconnected)
    case Some(kept) =>
      if used >= MAX_ATTEMPTS then s1.(pc := Exited(1))
      else
        StartRound(s1.(t := SetLink(s1.t, Reconnecting)),
                   if kept.initialize then ReplayForward else ResendKept, used, |s.arrived|)
  }

  /** `Proxy::on_loss`. */
  function OnLoss(s: State, order: seq<Id>): State {
    AnswerLoss(Unplug(s), AttemptsCarried(s.pending, Unplug(s).t), order)
  }

  function RoundFailed(s: State, order: seq<Id>): State {
    if !s.t.initialised then s.(pc := Exited(1))
    else
      var s1 := FailInFlight(s, None, order);
      NoConnection(s1).(t := SetLink(s1.t, Down), queue := [], pc := Disconnected, base := |s.arrived|)
  }

  /** An attempt has failed: `run_round` tries again or gives the round up. */
  function FailAttempt(s: State, retryable: bool, order: seq<Id>): State
    requires s.pc.Round?
  {
    if !retryable || s.pc.attempts >= MAX_ATTEMPTS then RoundFailed(s, order)
    else NoConnection(s).(pc := Round(s.pc.after, s.pc.attempts + 1, Connecting))
  }

  /** The hello has succeeded: `reconnect` goes on by what the round is for. */
  function AfterConnect(s: State, order: seq<Id>): State
    requires s.pc.Round?
  {
    var s := NoConnection(s);
    match s.pc.after
    case Nothing => Connected(s)
    case ReplayForward =>
      if s.t.keptFirst.None? then FailAttempt(s, false, order)
      else s.(pc := s.pc.(stage := WriteKept(s.t.keptFirst.value)))
    case ResendKept =>
      if s.t.keptFirst.None? then FailAttempt(s, false, order)
      else s.(pc := s.pc.(stage := WriteKept(s.t.keptFirst.value)))
    case ReplayDrop =>
      var s1 := s.(t := s.t.(replayStarted := true),
                   firstReplay := if s.firstReplay.None? then Some(|s.arrived|) else s.firstReplay,
                   readAt := |s.arrived|);
      if s.t.initialize.None? || RequestId(s.t.initialize.value).None? then FailAttempt(s1, false, order)
      else s1.(pc := s.pc.(stage := WriteInitialize(s.t.initialize.value, s.t.initialized)))
  }

  function RoundWritten(s: State): State
    requires s.pc.Round? && Writes(s.pc.stage)
  {
    match s.pc.stage
    case WriteKept(kept) =>
      var s1 := s.(prefix := s.prefix + [kept.line], owed := s.owed + {kept.id},
                   resent := s.resent + multiset{kept.line.at});
      if s.pc.after == ResendKept then
        Connected(s1).(pending :=
          if s.t.keptFirst.None? then None
          else Some(ResendPending(s.t.keptFirst.value.generation, s.pc.attempts)))
      else s1.(pc := s.pc.(stage := AwaitForward(kept.id)))
    case WriteInitialize(line, cached) =>
      var id := RequestId(line).value;
      s.(prefix := s.prefix + [line], owed := s.owed + {id}, pc := s.pc.(stage := AwaitReplay(id, cached)))
    case WriteInitialized(line) =>
      Connected(s.(prefix := s.prefix + [line]))
  }

  predicate Writes(stage: Stage) {
    stage.WriteKept? || (stage.WriteInitialize? && RequestId(stage.initLine).Some?) || stage.WriteInitialized?
  }

  predicate Awaits(stage: Stage) {
    stage.AwaitForward? || stage.AwaitReplay?
  }

  /** The state once a line of the reply has been read but not looked at. */
  function Popped(s: State): State
    requires s.wire != []
  {
    s.(wire := s.wire[1..], replies := s.replies + [s.wire[0]])
  }

  function Forwarded(s: State): State
    requires s.wire != []
  {
    Deliver(Popped(s), s.wire[0]).(taken := s.taken + [s.wire[0]])
  }

  /** `read_response`: one line of the reply; lines that answer something else are dropped. */
  function RoundReadLine(s: State, order: seq<Id>): State
    requires s.pc.Round? && Awaits(s.pc.stage) && s.wire != []
  {
    var line := s.wire[0];
    var s1 := Popped(s);
    match s.pc.stage
    case AwaitForward(id) =>
      if ResponseOutcome(line, id).None? then s1 else Connected(Forwarded(s))
    case AwaitReplay(id, cached) =>
      match ResponseOutcome(line, id)
      case None => s1
      case Some(Error) => FailAttempt(s1, true, order)
      case Some(Success) =>
        if cached.Some? then s1.(pc := s.pc.(stage := WriteInitialized(cached.value))) else Connected(s1)
  }

  /** A client line: read while forwarding, while disconnected and during a round. */
  function ReadClient(s: State, line: Line): State
    requires s.pc.Forward? || s.pc.Disconnected? || s.pc.Round?
  {
    var (t, kind) := OnClientLine(s.t, line);
    var s1 := s.(t := t, arrived := s.arrived + [line]);
    match s.pc
    case Forward => s1.(pc := Writing(line))
    case Round(_, _, _) =>
      if kind == CacheOnly then s1.(skipped := s.skipped + {line.at}) else s1.(queue := s.queue + [line])
    case Disconnected =>
      if kind != Request then s1.(base := |s1.arrived|)
      else
        StartRound(s1.(t := SetLink(t, Reconnecting), queue := s.queue + [line]),
                   if ReplaysHandshake(t) then ReplayDrop else Nothing, 0, line.at)
  }

  /** A whole client line has reached the daemon. */
  function Sent(s: State, line: Line): State {
    s.(sent := s.sent + [line],
       owed := if IsRequest(line) then s.owed + {line.env.value.id.value} else s.owed)
  }

  predicate PumpRuns(pc: Pc) {
    pc.Flush? || pc.Forward? || pc.Writing? || pc.Drain? || pc.Losing?
  }

  function Response(id: Id, ok: bool): Line {
    Line(0, Some(Envelope(Some(id), None, ok, !ok)))
  }

  // ----- The transition system

  /** The ids that an event's drain must list: those in flight, less the kept one on a loss. */
  ghost predicate DrainsAll(order: seq<Id>, t: TrackerState) {
    Lists(order, t.inFlight.Keys)
  }

  ghost predicate Enabled(s: State, e: Event) {
    match e
    case Client(line) =>
      // a client reuses no outstanding id
      && (s.pc.Forward? || s.pc.Disconnected? || s.pc.Round?)
      && line.at == |s.arrived|
      && (IsRequest(line) ==> line.env.value.id.value !in s.t.inFlight)
    case Eof => s.pc.Forward? || s.pc.Disconnected? || s.pc.Round?
    case DaemonAnswer(id, _) => id in s.owed
    case DaemonOther(line) => !IsResponse(line)
    case PumpRead => PumpRuns(s.pc) && s.held.None? && s.wire != []
    case PumpDeliver => PumpRuns(s.pc) && s.held.Some?
    case FlushWrite(_) => s.pc.Flush? && s.queue != []
    case FlushDone => s.pc.Flush? && s.queue == []
    case WriteDone(_) => s.pc.Writing?
    case Lost => s.pc.Forward?
    case LossDone(order) =>
      s.pc.Losing? && Lists(order, Unplug(s).t.inFlight.Keys - Keep(Kept(Unplug(s).t)))
    case Exit => s.pc.Drain?
    case ConnectOk(order) => s.pc.Round? && s.pc.stage.Connecting? && DrainsAll(order, s.t)
    case AttemptFail(retryable, order) =>
      && s.pc.Round? && DrainsAll(order, s.t)
      && (Writes(s.pc.stage) ==> retryable)
    case RoundWrite => s.pc.Round? && Writes(s.pc.stage)
    case RoundRead(order) => s.pc.Round? && Awaits(s.pc.stage) && s.wire != [] && DrainsAll(order, s.t)
  }

  ghost function Step(s: State, e: Event): State
    requires Enabled(s, e)
  {
    match e
    case Client(line) => ReadClient(s, line)
    case Eof => if s.pc.Forward? then s.(pc := Drain) else s.(pc := Exited(0))
    case DaemonAnswer(id, ok) => s.(owed := s.owed - {id}, wire := s.wire + [Response(id, ok)])
    case DaemonOther(line) => s.(wire := s.wire + [line])
    case PumpRead => s.(held := Some(s.wire[0]), wire := s.wire[1..], taken := s.taken + [s.wire[0]])
    case PumpDeliver => Deliver(s, s.held.value).(held := None)
    case FlushWrite(ok) =>
      var s1 := s.(queue := s.queue[1..]);
      if ok then Sent(s1, s.queue[0]) else s1.(pc := Losing)
    case FlushDone => s.(pc := Forward)
    case WriteDone(ok) => if ok then Sent(s, s.pc.line).(pc := Forward) else s.(pc := Losing)
    case Lost => s.(pc := Losing)
    case LossDone(order) => OnLoss(s, order)
    case Exit => s.(pc := Exited(0))
    case ConnectOk(order) => AfterConnect(s, order)
    case AttemptFail(retryable, order) => FailAttempt(s, retryable, order)
    case RoundWrite => RoundWritten(s)
    case RoundRead(order) => RoundReadLine(s, order)
  }

  /** The events `es` can happen one after the other from `s`. */
  ghost predicate Valid(s: State, es: seq<Event>)
    decreases |es|
  {
    es != [] ==> Enabled(s, es[0]) && Valid(Step(s, es[0]), es[1..])
  }

  /** The state `s` ends in after the events `es`. */
  ghost function Exec(s: State, es: seq<Event>): State
    requires Valid(s, es)
    decreases |es|
  {
    if es == [] then s else Exec(Step(s, es[0]), es[1..])
  }
}
