/** What every step of the reconnect machine keeps, in three layers. */
module ProxyInvariant {
  import opened Wrappers
  import opened Track
  import opened Proxy

  // ----- Reading histories

  function One(b: bool): nat {
    if b then 1 else 0
  }

  /** Whether `line` is a request with this id or, with `responses`, an answer to it. */
  predicate IsFor(line: Line, id: Id, responses: bool) {
    (if responses then IsResponse(line) else IsRequest(line)) && line.env.value.id.value == id
  }

  function Count(lines: seq<Line>, id: Id, responses: bool): nat {
    if lines == [] then 0
    else Count(lines[..|lines| - 1], id, responses) + One(IsFor(lines[|lines| - 1], id, responses))
  }

  /** An answer to `id` on stdout: a daemon's response or the proxy's own error. */
  predicate Answers(o: Out, id: Id) {
    match o
    case DaemonLine(line) => IsFor(line, id, true)
    case OwnError(other) => other == id
  }

  function CountAnswers(out: seq<Out>, id: Id): nat {
    if out == [] then 0 else CountAnswers(out[..|out| - 1], id) + One(Answers(out[|out| - 1], id))
  }

  function Unskipped(lines: seq<Line>, skipped: set<nat>): seq<Line> {
    if lines == [] then []
    else
      var l := lines[|lines| - 1];
      Unskipped(lines[..|lines| - 1], skipped) + if l.at in skipped then [] else [l]
  }

  function LastInitialized(lines: seq<Line>): Option<Line> {
    if lines == [] then None
    else if IsInitialized(lines[|lines| - 1]) then Some(lines[|lines| - 1])
    else LastInitialized(lines[..|lines| - 1])
  }

  // ----- First layer: no request is forgotten or answered twice

  ghost predicate Histories(s: State) {
    && (forall i :: 0 <= i < |s.arrived| ==> s.arrived[i].at == i)
    && s.base <= |s.arrived|
    && (forall a :: a in s.errored ==> a < s.base)
    && (forall a :: a in s.skipped ==> a < |s.arrived| && IsInitialized(s.arrived[a]))
    && (forall a :: a in s.resent ==> a < |s.arrived|)
  }

  /** An in-flight entry is about the client line it names, which no error has answered. */
  ghost predicate Entry(e: InFlight, id: Id, arrived: seq<Line>, errored: set<nat>) {
    && e.id == id
    && e.at < |arrived|
    && e.at !in errored
    && IsRequest(arrived[e.at])
    && arrived[e.at].env.value.id.value == id
    && arrived[e.at].env.value.verb.value == e.verb
  }

  ghost predicate Entries(t: TrackerState, arrived: seq<Line>, errored: set<nat>) {
    forall id :: id in t.inFlight ==> Entry(t.inFlight[id], id, arrived, errored)
  }

  /** The kept request is still in flight: it has been answered by no one. */
  ghost predicate KeptOk(t: TrackerState, arrived: seq<Line>) {
    t.keptFirst.Some? ==>
      var k := t.keptFirst.value;
      && !t.initialised
      && k.id in t.inFlight
      && k.line.at < |arrived|
      && arrived[k.line.at] == k.line
      && t.inFlight[k.id].at == k.line.at
      && CountsForLifecycle(t.inFlight[k.id].verb)
      && k.initialize == (t.inFlight[k.id].verb == INITIALIZE)
      && k.generation == t.keptGeneration
  }

  ghost predicate CachedOk(t: TrackerState, arrived: seq<Line>) {
    && t.initialized == LastInitialized(arrived)
    && (t.initialize.Some? ==>
          var l := t.initialize.value;
          l.at < |arrived| && arrived[l.at] == l && IsRequest(l) && l.env.value.verb.value == INITIALIZE)
  }

  /** Every request is answered on stdout or in flight, and not both. */
  ghost predicate Conserved(s: State) {
    forall id :: Count(s.arrived, id, false) == CountAnswers(s.out, id) + One(id in s.t.inFlight)
  }

  predicate OneOutcome(line: Line) {
    IsResponse(line) ==> line.env.value.hasResult != line.env.value.hasError
  }

  /** How many answers to `id` are still to come from the current connection. */
  function Owing(s: State, id: Id): nat {
    One(id in s.owed) + Count(s.wire, id, true) + One(s.held.Some? && IsFor(s.held.value, id, true))
  }

  predicate Awaited(stage: Stage, id: Id) {
    match stage
    case AwaitForward(other) => id == other
    case AwaitReplay(other, _) => id == other
    case _ => false
  }

  predicate Resends(after: AfterHello) {
    after.ReplayForward? || after.ResendKept?
  }

  predicate KeptFor(t: TrackerState, after: AfterHello, id: Id) {
    Resends(after) && t.keptFirst.Some? && t.keptFirst.value.id == id
  }

  ghost predicate OwesId(s: State, id: Id) {
    var flying := One(id in s.t.inFlight);
    match s.pc
    case Round(after, _, stage) =>
      && Owing(s, id) <= One(Awaited(stage, id))
      && Count(s.queue, id, false) + One(KeptFor(s.t, after, id)) <= flying
    case Disconnected => Owing(s, id) == 0 && flying == 0
    case Losing => Owing(s, id) <= flying
    case Exited(_) => true
    case Writing(line) => Owing(s, id) + Count(s.queue, id, false) + One(IsFor(line, id, false)) <= flying
    case _ => Owing(s, id) + Count(s.queue, id, false) <= flying
  }

  ghost predicate Owes(s: State) {
    && (forall l :: l in s.wire ==> OneOutcome(l))
    && (s.held.Some? ==> OneOutcome(s.held.value))
    && (s.pc.Disconnected? ==> s.queue == [])
    && (s.pc.Disconnected? || s.pc.Round? ==> s.held.None?)
    && (forall id :: OwesId(s, id))
  }

  /** What a round re-sends is what it started for. */
  ghost predicate Stages(s: State) {
    s.pc.Round? ==>
      match s.pc.stage
      case Connecting => Resends(s.pc.after) ==> s.t.keptFirst.Some?
      case WriteKept(k) => Resends(s.pc.after) && s.t.keptFirst == Some(k)
      case AwaitForward(id) => s.pc.after.ReplayForward? && s.t.keptFirst.Some? && id == s.t.keptFirst.value.id
      case WriteInitialize(l, _) => s.pc.after.ReplayDrop?
      case AwaitReplay(_, _) => s.pc.after.ReplayDrop?
      case WriteInitialized(_) => s.pc.after.ReplayDrop?
  }

  ghost predicate Inv1(s: State) {
    && Histories(s)
    && Entries(s.t, s.arrived, s.errored)
    && KeptOk(s.t, s.arrived)
    && CachedOk(s.t, s.arrived)
    && Conserved(s)
    && Owes(s)
    && Stages(s)
  }

  // ----- Second layer: what is re-sent, and how often

  function Opt<T>(o: Option<T>): seq<T> {
    if o.Some? then [o.value] else []
  }

  /** The handshake notification that the latest replay attempt found in the cache. */
  ghost function CachedAtRead(s: State): Option<Line> {
    if s.readAt <= |s.arrived| then LastInitialized(s.arrived[..s.readAt]) else None
  }

  ghost predicate ReplayRound(s: State, stage: Stage) {
    && ReplaysHandshake(s.t)
    && s.t.link == Reconnecting
    && (s.t.replayStarted <==> s.firstReplay.Some?)
    && (s.firstReplay.Some? ==> s.base <= s.firstReplay.value <= s.readAt <= |s.arrived|)
    && (!stage.Connecting? ==> s.firstReplay.Some?)
    && match stage
       case Connecting => s.prefix == []
       case WriteInitialize(l, cached) => s.prefix == [] && s.t.initialize == Some(l) && cached == CachedAtRead(s)
       case AwaitReplay(_, cached) => s.prefix == [s.t.initialize.value] && cached == CachedAtRead(s)
       case WriteInitialized(l) => s.prefix == [s.t.initialize.value] && Some(l) == CachedAtRead(s)
       case _ => false
  }

  ghost predicate ResendRound(s: State, after: AfterHello, stage: Stage) {
    && s.firstReplay.None?
    && s.t.keptFirst.Some?
    && s.t.keptFirst.value.initialize == after.ReplayForward?
    && s.t.keptFirst.value.line.at < s.base
    && (stage.Connecting? || stage.WriteKept? ==> s.prefix == [])
    && (stage.AwaitForward? ==> s.prefix == [s.t.keptFirst.value.line])
  }

  /** What was re-sent on a connection that is up, by what its round was for. */
  ghost predicate Prefixed(s: State) {
    match s.via
    case Nothing => s.prefix == [] && s.firstReplay.None?
    case ReplayDrop =>
      && ReplaysHandshake(s.t)
      && s.firstReplay.Some? && s.base <= s.firstReplay.value <= s.readAt <= |s.arrived|
      && s.prefix == [s.t.initialize.value] + Opt(CachedAtRead(s))
    case _ =>
      && s.firstReplay.None?
      && |s.prefix| == 1 && IsRequest(s.prefix[0]) && s.prefix[0].at < s.base && s.prefix[0].at !in s.errored
  }

  ghost predicate Shaped(s: State) {
    match s.pc
    case Round(after, attempts, stage) =>
      && 1 <= attempts <= MAX_ATTEMPTS
      && s.via == after && s.sent == [] && s.pending.None?
      && (match after
          case Nothing => !ReplaysHandshake(s.t) && s.firstReplay.None? && stage.Connecting? && s.prefix == []
          case ReplayDrop => ReplayRound(s, stage)
          case _ => ResendRound(s, after, stage))
    case Disconnected => s.base == |s.arrived| && s.pending.None? && s.sent == [] && s.prefix == []
    case Exited(_) => true
    case _ => Prefixed(s)
  }

  /** How often the kept request may have been re-sent so far. */
  function ResendBound(s: State): nat {
    match s.pc
    case Round(after, attempts, stage) =>
      if !Resends(after) || attempts == 0 then 0
      else if stage.AwaitForward? then attempts
      else attempts - 1
    case _ =>
      if s.pending.Some? && s.t.keptFirst.Some? && s.t.keptFirst.value.generation == s.pending.value.generation
      then s.pending.value.attemptsUsed
      else 0
  }

  ghost predicate Bounded(s: State) {
    && (forall a :: s.resent[a] <= MAX_ATTEMPTS)
    && (s.pending.Some? ==>
          s.pending.value.attemptsUsed <= MAX_ATTEMPTS && s.pending.value.generation <= s.t.keptGeneration)
    && (s.t.keptFirst.Some? && !s.pc.Exited? ==> s.resent[s.t.keptFirst.value.line.at] <= ResendBound(s))
  }

  // ----- Third layer: the order in which client lines are sent

  function WritingNow(pc: Pc): seq<Line> {
    if pc.Writing? then [pc.line] else []
  }

  ghost predicate Ordered(s: State) {
    match s.pc
    case Disconnected => true
    case Exited(_) => true
    case Losing => s.base <= |s.arrived| && s.sent <= Unskipped(s.arrived[s.base..], s.skipped)
    case _ =>
      && s.base <= |s.arrived|
      && s.sent + s.queue + WritingNow(s.pc) == Unskipped(s.arrived[s.base..], s.skipped)
      && (s.pc.Forward? || s.pc.Writing? || s.pc.Drain? ==> s.queue == [])
  }

  /** Since the current link began, just the notifications that the replay will send were skipped. */
  ghost predicate Skips(s: State) {
    !s.pc.Exited? ==>
      forall a :: s.base <= a < |s.arrived| ==>
        (a in s.skipped <==>
         s.via.ReplayDrop? && IsInitialized(s.arrived[a]) && (s.firstReplay.None? || a < s.firstReplay.value))
  }

  ghost predicate Inv(s: State) {
    Inv1(s) && Shaped(s) && Bounded(s) && Ordered(s) && Skips(s)
  }

  lemma StartHasInv()
    ensures Inv(START)
  {
  }
}
