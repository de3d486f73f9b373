/** The second layer, kept by every step: what is re-sent on a connection, and how often. */
module ProxyLayer2 {
  import opened Wrappers
  import opened Track
  import opened Proxy
  import opened ProxyInvariant
  import opened ProxySteps
  import opened ProxyLayer1

  // ----- Client lines

  lemma CachedStays(s: State, line: Line)
    requires s.readAt <= |s.arrived|
    ensures CachedAtRead(Tracked(s, line)) == CachedAtRead(s)
  {
    assert (s.arrived + [line])[..s.readAt] == s.arrived[..s.readAt];
  }

  /** No client line changes what the tracker knows of a session that is initialised. */
  lemma SessionStays(t: TrackerState, line: Line)
    ensures var t' := OnClientLine(t, line).0;
            && t'.initialised == t.initialised && t'.link == t.link && t'.replayStarted == t.replayStarted
            && (t.initialised ==> t'.initialize == t.initialize && t'.keptFirst == t.keptFirst)
            && (t.keptFirst.Some? ==> t'.keptFirst == t.keptFirst && t'.keptGeneration == t.keptGeneration)
            && t'.keptGeneration >= t.keptGeneration
            && (t'.keptFirst == t.keptFirst
                || (t'.keptFirst.Some? && t'.keptFirst.value.line == line &&
                    t'.keptFirst.value.generation == t.keptGeneration + 1))
  {
  }

  lemma PrefixedClient(s: State, line: Line)
    requires Prefixed(s)
    ensures Prefixed(Tracked(s, line).(pc := Writing(line)))
  {
    if s.via.ReplayDrop? { CachedStays(s, line); }
    SessionStays(s.t, line);
  }

  lemma ShapedClientDisconnected(s: State, line: Line)
    requires Shaped(s) && s.pc.Disconnected? && Fresh(s, line)
    ensures Shaped(ReadClient(s, line))
  {
    SessionStays(s.t, line);
  }

  lemma ShapedClientRound(s: State, line: Line)
    requires Shaped(s) && s.pc.Round?
    ensures Shaped(ReadClient(s, line))
  {
    SessionStays(s.t, line);
    if s.pc.after.ReplayDrop? && s.firstReplay.Some? { CachedStays(s, line); }
  }

  lemma BoundedClient(s: State, line: Line)
    requires Bounded(s) && Histories(s) && KeptOk(s.t, s.arrived) && Fresh(s, line)
    requires s.pc.Forward? || s.pc.Disconnected? || s.pc.Round?
    requires Shaped(s) && Stages(s)
    ensures Bounded(ReadClient(s, line))
  {
    SessionStays(s.t, line);
    assert |s.arrived| !in s.resent;
  }

  // ----- The connection

  lemma ShapedQuiet(s: State, s': State)
    requires Shaped(s) && !s.pc.Disconnected? && !s.pc.Round? && !s.pc.Exited?
    requires !s'.pc.Disconnected? && !s'.pc.Round?
    requires s'.via == s.via && s'.prefix == s.prefix && s'.firstReplay == s.firstReplay && s'.readAt == s.readAt
    requires s'.arrived == s.arrived && s'.base == s.base && s'.errored == s.errored
    requires s'.t.initialize == s.t.initialize && (s.t.initialised ==> s'.t.initialised)
    ensures Shaped(s')
  {
  }

  lemma DeliverShaped(s: State, line: Line)
    requires Shaped(s) && PumpRuns(s.pc) && InFlightIfAnswer(s.t, line)
    ensures Shaped(Deliver(s, line).(held := None))
  {
    DaemonLineTracked(s.t, line);
    ShapedQuiet(s, Deliver(s, line).(held := None));
  }

  lemma DeliverBounded(s: State, line: Line)
    requires Bounded(s) && !s.pc.Round? && InFlightIfAnswer(s.t, line)
    ensures Bounded(Deliver(s, line).(held := None))
  {
    DaemonLineTracked(s.t, line);
  }

  // ----- Losing it

  lemma LossShaped(s: State, used: nat, order: seq<Id>)
    requires s.pending.None? && KeptOk(s.t, s.arrived)
    ensures Shaped(AnswerLoss(s, used, order))
  {
  }

  lemma LossBounded(s: State, used: nat, order: seq<Id>)
    requires s.pending.None? && KeptOk(s.t, s.arrived)
    requires forall a :: s.resent[a] <= MAX_ATTEMPTS
    requires s.t.keptFirst.Some? ==> s.resent[s.t.keptFirst.value.line.at] <= used
    ensures Bounded(AnswerLoss(s, used, order))
  {
  }

  lemma UnplugBounds(s: State)
    requires Bounded(s) && s.pc.Losing? && KeptOk(Unplug(s).t, s.arrived)
    requires s.held.Some? ==> InFlightIfAnswer(s.t, s.held.value)
    ensures var k := Unplug(s).t.keptFirst;
            k.Some? ==> s.resent[k.value.line.at] <= AttemptsCarried(s.pending, Unplug(s).t)
  {
    if s.held.Some? { DaemonLineTracked(s.t, s.held.value); }
  }

  lemma LossKeeps2(s: State, order: seq<Id>)
    requires Inv1(s) && Bounded(s) && Enabled(s, LossDone(order))
    ensures Shaped(OnLoss(s, order)) && Bounded(OnLoss(s, order))
  {
    UnplugKeeps(s);
    if s.held.Some? { HeldIsInFlight(s); }
    UnplugBounds(s);
    LossShaped(Unplug(s), AttemptsCarried(s.pending, Unplug(s).t), order);
    LossBounded(Unplug(s), AttemptsCarried(s.pending, Unplug(s).t), order);
  }

  // ----- Rounds

  lemma FailAttemptKeeps2(s: State, retryable: bool, order: seq<Id>)
    requires s.pc.Round? && Shaped(s) && Bounded(s) && KeptOk(s.t, s.arrived)
    ensures Shaped(FailAttempt(s, retryable, order)) && Bounded(FailAttempt(s, retryable, order))
  {
  }

  lemma ConnectKeeps2(s: State, order: seq<Id>)
    requires Enabled(s, ConnectOk(order)) && Shaped(s) && Bounded(s) && Histories(s)
    requires KeptOk(s.t, s.arrived) && CachedOk(s.t, s.arrived) && Stages(s)
    ensures Shaped(AfterConnect(s, order)) && Bounded(AfterConnect(s, order))
  {
    assert s.arrived[..|s.arrived|] == s.arrived;
  }

  lemma WriteKeptKeeps2(s: State)
    requires s.pc.Round? && s.pc.stage.WriteKept? && Shaped(s) && Bounded(s) && Stages(s) && KeptOk(s.t, s.arrived)
    requires Entries(s.t, s.arrived, s.errored)
    ensures Shaped(RoundWritten(s)) && Bounded(RoundWritten(s))
  {
    var k := s.t.keptFirst.value;
    assert Entry(s.t.inFlight[k.id], k.id, s.arrived, s.errored);
  }

  lemma WriteHandshakeKeeps2(s: State)
    requires s.pc.Round? && Writes(s.pc.stage) && !s.pc.stage.WriteKept? && Shaped(s) && Bounded(s)
    requires KeptOk(s.t, s.arrived) && Stages(s)
    ensures Shaped(RoundWritten(s)) && Bounded(RoundWritten(s))
  {
  }

  /** The awaited answer to a re-sent `initialize` settles the kept request. */
  lemma ForwardReplyKeeps2(s: State, id: Id)
    requires Inv1(s) && Shaped(s) && Bounded(s)
    requires s.pc.Round? && s.pc.stage == AwaitForward(id) && s.wire != [] && IsFor(s.wire[0], id, true)
    ensures Shaped(Connected(Forwarded(s))) && Bounded(Connected(Forwarded(s)))
  {
    var k, line := s.t.keptFirst.value, s.wire[0];
    assert Entry(s.t.inFlight[k.id], k.id, s.arrived, s.errored);
    assert line in s.wire;
    assert OnDaemonLine(s.t, line).keptFirst.None?;
  }

  lemma ReplayReplyKeeps2(s: State, order: seq<Id>)
    requires Shaped(s) && Bounded(s) && KeptOk(s.t, s.arrived) && Stages(s)
    requires s.pc.Round? && s.pc.stage.AwaitReplay? && s.wire != []
    ensures Shaped(RoundReadLine(s, order)) && Bounded(RoundReadLine(s, order))
  {
    if ResponseOutcome(s.wire[0], s.pc.stage.replayId) == Some(Error) { FailAttemptKeeps2(Popped(s), true, order); }
  }

  lemma RoundReadKeeps2(s: State, order: seq<Id>)
    requires Inv1(s) && Shaped(s) && Bounded(s) && Enabled(s, RoundRead(order))
    ensures Shaped(RoundReadLine(s, order)) && Bounded(RoundReadLine(s, order))
  {
    if s.pc.stage.AwaitReplay? {
      ReplayReplyKeeps2(s, order);
    } else if ResponseOutcome(s.wire[0], s.pc.stage.forwardId).Some? {
      ForwardReplyKeeps2(s, s.pc.stage.forwardId);
    }
  }

  // ----- All steps

  lemma ClientKeeps2(s: State, line: Line)
    requires Inv1(s) && Shaped(s) && Bounded(s) && Enabled(s, Client(line))
    ensures Shaped(ReadClient(s, line)) && Bounded(ReadClient(s, line))
  {
    BoundedClient(s, line);
    match s.pc
    case Forward => PrefixedClient(s, line);
    case Disconnected => ShapedClientDisconnected(s, line);
    case _ => ShapedClientRound(s, line);
  }

  lemma DeliverKeeps2(s: State)
    requires Inv1(s) && Shaped(s) && Bounded(s) && Enabled(s, PumpDeliver)
    ensures Shaped(Step(s, PumpDeliver)) && Bounded(Step(s, PumpDeliver))
  {
    HeldIsInFlight(s);
    DeliverShaped(s, s.held.value);
    DeliverBounded(s, s.held.value);
  }

  predicate Quiet(e: Event) {
    e.Eof? || e.DaemonAnswer? || e.DaemonOther? || e.PumpRead? || e.FlushWrite? || e.FlushDone? || e.WriteDone?
    || e.Lost? || e.Exit?
  }

  lemma QuietShaped(s: State, e: Event)
    requires Shaped(s) && Enabled(s, e) && Quiet(e)
    ensures Shaped(Step(s, e))
  {
    if PumpRuns(s.pc) && PumpRuns(Step(s, e).pc) { ShapedQuiet(s, Step(s, e)); }
  }

  lemma QuietBounded(s: State, e: Event)
    requires Bounded(s) && Enabled(s, e) && Quiet(e)
    ensures Bounded(Step(s, e))
  {
  }

  lemma QuietKeeps2(s: State, e: Event)
    requires Shaped(s) && Bounded(s) && Enabled(s, e) && Quiet(e)
    ensures Shaped(Step(s, e)) && Bounded(Step(s, e))
  {
    QuietShaped(s, e);
    QuietBounded(s, e);
  }

  lemma RoundKeeps2(s: State, e: Event)
    requires Inv1(s) && Shaped(s) && Bounded(s) && Enabled(s, e)
    requires e.ConnectOk? || e.AttemptFail? || e.RoundWrite? || e.RoundRead?
    ensures Shaped(Step(s, e)) && Bounded(Step(s, e))
  {
    match e
    case ConnectOk(order) => ConnectKeeps2(s, order);
    case AttemptFail(retryable, order) => FailAttemptKeeps2(s, retryable, order);
    case RoundWrite =>
      if s.pc.stage.WriteKept? { WriteKeptKeeps2(s); } else { WriteHandshakeKeeps2(s); }
    case RoundRead(order) => RoundReadKeeps2(s, order);
  }

  lemma StepKeeps2(s: State, e: Event)
    requires Inv1(s) && Shaped(s) && Bounded(s) && Enabled(s, e)
    ensures Shaped(Step(s, e)) && Bounded(Step(s, e))
  {
    match e
    case Client(line) => ClientKeeps2(s, line);
    case PumpDeliver => DeliverKeeps2(s);
    case LossDone(order) => LossKeeps2(s, order);
    case ConnectOk(_) => RoundKeeps2(s, e);
    case AttemptFail(_, _) => RoundKeeps2(s, e);
    case RoundWrite => RoundKeeps2(s, e);
    case RoundRead(_) => RoundKeeps2(s, e);
    case _ => QuietKeeps2(s, e);
  }
}
