/** One lemma for each kind of event: it keeps the first layer. */
module ProxyLayer1 {
  import opened Wrappers
  import opened Track
  import opened Proxy
  import opened ProxyInvariant
  import opened ProxySteps

  // ----- The client and the daemon

  ghost predicate MoreInFlight(t: TrackerState, t': TrackerState, line: Line) {
    forall id :: One(id in t'.inFlight) == One(id in t.inFlight) + One(IsFor(line, id, false))
  }

  lemma ClientOwesForward(s: State, line: Line)
    requires Owes(s) && s.pc.Forward? && MoreInFlight(s.t, OnClientLine(s.t, line).0, line)
    ensures Owes(ReadClient(s, line))
  {
    forall id ensures OwesId(ReadClient(s, line), id) {
      assert OwesId(s, id);
    }
  }

  lemma ClientOwesDisconnected(s: State, line: Line)
    requires Owes(s) && s.pc.Disconnected? && MoreInFlight(s.t, OnClientLine(s.t, line).0, line)
    requires OnClientLine(s.t, line).1 == Request <==> IsRequest(line)
    ensures Owes(ReadClient(s, line))
  {
    CountPush(s.queue, line);
    forall id ensures OwesId(ReadClient(s, line), id) {
      assert OwesId(s, id);
    }
  }

  lemma ClientOwesRound(s: State, line: Line)
    requires Owes(s) && s.pc.Round? && MoreInFlight(s.t, OnClientLine(s.t, line).0, line)
    requires OnClientLine(s.t, line).1 == CacheOnly ==> !IsRequest(line)
    requires Resends(s.pc.after) ==> OnClientLine(s.t, line).0.keptFirst == s.t.keptFirst
    ensures Owes(ReadClient(s, line))
  {
    CountPush(s.queue, line);
    forall id ensures OwesId(ReadClient(s, line), id) {
      assert OwesId(s, id);
    }
  }

  lemma ClientForwardKeeps(s: State, line: Line)
    requires Inv1(s) && s.pc.Forward? && Fresh(s, line)
    ensures Inv1(ReadClient(s, line))
  {
    TrackTables(s, line);
    TrackConserves(s, line);
    ClientOwesForward(s, line);
  }

  lemma SameTables(a: State, b: State)
    requires Entries(a.t, a.arrived, a.errored) && KeptOk(a.t, a.arrived) && CachedOk(a.t, a.arrived) && Conserved(a)
    requires b.arrived == a.arrived && b.errored == a.errored && b.out == a.out
    requires b.t == a.t.(link := b.t.link, replayStarted := b.t.replayStarted)
    ensures Entries(b.t, b.arrived, b.errored) && KeptOk(b.t, b.arrived) && CachedOk(b.t, b.arrived) && Conserved(b)
  {
    forall id ensures Count(b.arrived, id, false) == CountAnswers(b.out, id) + One(id in b.t.inFlight) {
      assert Count(a.arrived, id, false) == CountAnswers(a.out, id) + One(id in a.t.inFlight);
    }
  }

  lemma ClientHistories(s: State, line: Line)
    requires Histories(s) && (s.pc.Disconnected? || s.pc.Round?) && Fresh(s, line)
    ensures Histories(ReadClient(s, line))
  {
    if !IsRequest(line) { OtherTracked(s.t, line); }
  }

  lemma ClientTables(s: State, line: Line)
    requires Inv1(s) && (s.pc.Disconnected? || s.pc.Round?) && Fresh(s, line)
    ensures Tables(ReadClient(s, line)) && Conserved(ReadClient(s, line))
  {
    TrackTables(s, line);
    TrackConserves(s, line);
    ClientHistories(s, line);
    SameTables(Tracked(s, line), ReadClient(s, line));
  }

  lemma ClientTracked(s: State, line: Line)
    requires Inv1(s) && Fresh(s, line)
    ensures MoreInFlight(s.t, OnClientLine(s.t, line).0, line)
    ensures OnClientLine(s.t, line).1 == Request <==> IsRequest(line)
    ensures OnClientLine(s.t, line).1 == CacheOnly ==> !IsRequest(line)
    ensures s.t.keptFirst.Some? ==> OnClientLine(s.t, line).0.keptFirst == s.t.keptFirst
  {
    TrackConserves(s, line);
    if IsRequest(line) { RequestTracked(s.t, line); } else { OtherTracked(s.t, line); }
  }

  lemma ClientDisconnectedKeeps(s: State, line: Line)
    requires Inv1(s) && s.pc.Disconnected? && Fresh(s, line)
    ensures Inv1(ReadClient(s, line))
  {
    ClientTables(s, line);
    ClientTracked(s, line);
    ClientOwesDisconnected(s, line);
  }

  lemma ClientRoundKeeps(s: State, line: Line)
    requires Inv1(s) && s.pc.Round? && Fresh(s, line)
    ensures Inv1(ReadClient(s, line))
  {
    ClientTables(s, line);
    ClientTracked(s, line);
    ClientOwesRound(s, line);
  }

  lemma DaemonKeeps(s: State, line: Line, owed: set<Id>)
    requires Inv1(s) && OneOutcome(line)
    requires forall id :: One(id in owed) + One(IsFor(line, id, true)) == One(id in s.owed)
    ensures Inv1(s.(owed := owed, wire := s.wire + [line]))
  {
    var s' := s.(owed := owed, wire := s.wire + [line]);
    CountPush(s.wire, line);
    forall id ensures OwesId(s', id) {
      assert OwesId(s, id);
    }
  }

  // ----- The pump

  lemma PumpReadKeeps(s: State)
    requires Inv1(s) && Enabled(s, PumpRead)
    ensures Inv1(Step(s, PumpRead))
  {
    var s' := Step(s, PumpRead);
    CountPop(s.wire);
    forall id ensures OwesId(s', id) {
      assert OwesId(s, id);
    }
  }

  /** While the pump runs, a held answer is to a request in flight. */
  lemma HeldIsInFlight(s: State)
    requires Owes(s) && PumpRuns(s.pc) && s.held.Some?
    ensures InFlightIfAnswer(s.t, s.held.value)
  {
    if IsResponse(s.held.value) {
      assert OwesId(s, s.held.value.env.value.id.value);
    }
  }

  lemma DeliverHeldKeeps(s: State)
    requires Inv1(s) && PumpRuns(s.pc) && s.held.Some?
    ensures Inv1(Deliver(s, s.held.value).(held := None))
  {
    var s' := Deliver(s, s.held.value).(held := None);
    HeldIsInFlight(s);
    DeliverConserves(s, s.held.value);
    DeliverTables(s.t, s.held.value, s.arrived, s.errored);
    DaemonLineTracked(s.t, s.held.value);
    forall id ensures OwesId(s', id) {
      assert OwesId(s, id);
    }
  }

  // ----- The main loop while connected

  lemma FlushOwes(s: State)
    requires Owes(s) && s.pc.Flush? && s.queue != []
    ensures Owes(Sent(s.(queue := s.queue[1..]), s.queue[0]))
  {
    CountPop(s.queue);
    forall id ensures OwesId(Sent(s.(queue := s.queue[1..]), s.queue[0]), id) {
      assert OwesId(s, id);
    }
  }

  lemma WriteOwes(s: State)
    requires Owes(s) && s.pc.Writing?
    ensures Owes(Sent(s, s.pc.line).(pc := Forward))
  {
    forall id ensures OwesId(Sent(s, s.pc.line).(pc := Forward), id) {
      assert OwesId(s, id);
    }
  }

  lemma LosingOwes(s: State, queue: seq<Line>)
    requires Owes(s) && PumpRuns(s.pc)
    ensures Owes(s.(queue := queue, pc := Losing))
  {
    forall id ensures OwesId(s.(queue := queue, pc := Losing), id) {
      assert OwesId(s, id);
    }
  }

  lemma FlushWriteKeeps(s: State, ok: bool)
    requires Inv1(s) && Enabled(s, FlushWrite(ok))
    ensures Inv1(Step(s, FlushWrite(ok)))
  {
    FlushOwes(s);
    LosingOwes(s, s.queue[1..]);
  }

  lemma WriteDoneKeeps(s: State, ok: bool)
    requires Inv1(s) && Enabled(s, WriteDone(ok))
    ensures Inv1(Step(s, WriteDone(ok)))
  {
    WriteOwes(s);
    LosingOwes(s, s.queue);
  }

  lemma MoveKeeps(s: State, pc: Pc)
    requires Inv1(s)
    requires (s.pc.Flush? && s.queue == [] && pc.Forward?) || (s.pc.Forward? && pc.Drain?)
             || (s.pc.Forward? && pc.Losing?) || pc.Exited?
    ensures Inv1(s.(pc := pc))
  {
    forall id ensures OwesId(s.(pc := pc), id) {
      assert OwesId(s, id);
    }
  }

  // ----- Losing the connection

  ghost predicate Tables(s: State) {
    Histories(s) && Entries(s.t, s.arrived, s.errored) && KeptOk(s.t, s.arrived) && CachedOk(s.t, s.arrived)
  }

  lemma UnplugKeeps(s: State)
    requires Inv1(s) && s.pc.Losing?
    ensures Tables(Unplug(s)) && Conserved(Unplug(s))
    ensures Unplug(s).held.None? && Unplug(s).queue == [] && Unplug(s).wire == s.wire
    ensures Unplug(s).t.keptFirst.Some? ==> KeptInFlight(Unplug(s).t) == Unplug(s).t.keptFirst
  {
    if s.held.Some? { DeliverHeldKeeps(s); }
  }

  lemma NothingOwed(s: State, id: Id)
    requires s.owed == {} && s.wire == [] && s.held.None?
    ensures Owing(s, id) == 0
  {
  }

  /** After a loss all that is left in flight is the kept request, if it gets re-sent. */
  lemma LossOwes(s1: State, s': State)
    requires s'.t.inFlight == Only(s1.t.inFlight, Kept(s1.t)) && s'.held.None?
    requires s'.pc.Exited? || (s'.owed == {} && s'.wire == [] && s'.queue == [])
    requires s'.pc.Disconnected? ==> Kept(s1.t).None?
    requires s'.pc.Round? ==> s'.pc.stage.Connecting? && s'.t.keptFirst == KeptInFlight(s1.t)
    requires s'.pc.Disconnected? || s'.pc.Round? || s'.pc.Exited?
    requires forall l :: l in s'.wire ==> OneOutcome(l)
    ensures Owes(s')
  {
    forall id ensures OwesId(s', id) {
      if !s'.pc.Exited? { NothingOwed(s', id); }
    }
  }

  /** The first layer's tables look at neither the link nor the connection. */
  lemma TablesFrame(a: State, b: State)
    requires Tables(a) && Conserved(a)
    requires b.arrived == a.arrived && b.base == a.base && b.errored == a.errored && b.skipped == a.skipped
    requires b.resent == a.resent && b.out == a.out
    requires b.t == a.t.(link := b.t.link, replayStarted := b.t.replayStarted)
    ensures Tables(b) && Conserved(b)
  {
    forall id ensures Count(b.arrived, id, false) == CountAnswers(b.out, id) + One(id in b.t.inFlight) {
      assert Count(a.arrived, id, false) == CountAnswers(a.out, id) + One(id in a.t.inFlight);
    }
  }

  function Failed(s: State, order: seq<Id>): State {
    FailInFlight(s, Kept(s.t), order).(base := |s.arrived|)
  }

  lemma AnswerLossShape(s: State, used: nat, order: seq<Id>)
    ensures var a, b := Failed(s, order), AnswerLoss(s, used, order);
            && b.arrived == a.arrived && b.base == a.base && b.errored == a.errored && b.skipped == a.skipped
            && b.resent == a.resent && b.out == a.out
            && b.t == a.t.(link := b.t.link, replayStarted := b.t.replayStarted)
            && b.queue == s.queue && b.held == s.held
            && (b.pc.Exited? || (b.owed == {} && b.wire == []))
            && (b.pc.Exited? ==> b.wire == s.wire)
            && (b.pc.Disconnected? || b.pc.Round? || b.pc.Exited?)
            && (b.pc.Disconnected? <==> KeptInFlight(s.t).None?)
            && (b.pc.Round? ==> b.pc.stage.Connecting?)
  {
  }

  lemma AnswerLossKeeps(s: State, used: nat, order: seq<Id>)
    requires Tables(s) && Conserved(s) && s.held.None? && s.queue == []
    requires s.t.keptFirst.Some? ==> KeptInFlight(s.t) == s.t.keptFirst
    requires Lists(order, s.t.inFlight.Keys - Keep(Kept(s.t)))
    requires forall l :: l in s.wire ==> OneOutcome(l)
    ensures Inv1(AnswerLoss(s, used, order))
  {
    FailTables(s, Kept(s.t), order);
    FailConserves(s, Kept(s.t), order);
    AnswerLossShape(s, used, order);
    AnswerLossInv(s, Failed(s, order), AnswerLoss(s, used, order));
  }

  lemma AnswerLossInv(s: State, a: State, b: State)
    requires Tables(a) && Conserved(a) && a.t.keptFirst == s.t.keptFirst && a.t.inFlight == Only(s.t.inFlight, Kept(s.t))
    requires s.t.keptFirst.Some? ==> KeptInFlight(s.t) == s.t.keptFirst
    requires b.arrived == a.arrived && b.base == a.base && b.errored == a.errored && b.skipped == a.skipped
    requires b.resent == a.resent && b.out == a.out
    requires b.t == a.t.(link := b.t.link, replayStarted := b.t.replayStarted)
    requires b.queue == [] && b.held.None?
    requires b.pc.Exited? || (b.owed == {} && b.wire == [])
    requires forall l :: l in b.wire ==> OneOutcome(l)
    requires b.pc.Disconnected? || b.pc.Round? || b.pc.Exited?
    requires b.pc.Disconnected? <==> KeptInFlight(s.t).None?
    requires b.pc.Round? ==> b.pc.stage.Connecting?
    ensures Inv1(b)
  {
    TablesFrame(a, b);
    LossOwes(s, b);
  }

  lemma LossKeeps(s: State, order: seq<Id>)
    requires Inv1(s) && Enabled(s, LossDone(order))
    ensures Inv1(OnLoss(s, order))
  {
    UnplugKeeps(s);
    AnswerLossKeeps(Unplug(s), AttemptsCarried(s.pending, Unplug(s).t), order);
  }

  // ----- Rounds

  lemma RoundFailedKeeps(s: State, order: seq<Id>)
    requires Tables(s) && Conserved(s) && s.held.None? && DrainsAll(order, s.t) && s.pc.Round?
    requires forall l :: l in s.wire ==> OneOutcome(l)
    ensures Inv1(RoundFailed(s, order))
  {
    var s' := RoundFailed(s, order);
    if s.t.initialised {
      FailTables(s, None, order);
      FailConserves(s, None, order);
      forall id ensures OwesId(s', id) {
        NothingOwed(s', id);
      }
    }
  }

  ghost predicate QueueInFlight(s: State)
    requires s.pc.Round?
  {
    && (forall id :: Count(s.queue, id, false) + One(KeptFor(s.t, s.pc.after, id)) <= One(id in s.t.inFlight))
    && (Resends(s.pc.after) ==> s.t.keptFirst.Some?)
  }

  lemma RoundQueue(s: State)
    requires Owes(s) && Stages(s) && s.pc.Round?
    ensures QueueInFlight(s)
  {
    forall id ensures Count(s.queue, id, false) + One(KeptFor(s.t, s.pc.after, id)) <= One(id in s.t.inFlight) {
      assert OwesId(s, id);
    }
  }

  lemma FailAttemptKeeps(s: State, retryable: bool, order: seq<Id>)
    requires Tables(s) && Conserved(s) && s.held.None? && DrainsAll(order, s.t) && s.pc.Round? && QueueInFlight(s)
    requires forall l :: l in s.wire ==> OneOutcome(l)
    ensures Inv1(FailAttempt(s, retryable, order))
  {
    if !retryable || s.pc.attempts >= MAX_ATTEMPTS {
      RoundFailedKeeps(s, order);
    } else {
      forall id ensures OwesId(FailAttempt(s, retryable, order), id) {
        NothingOwed(FailAttempt(s, retryable, order), id);
      }
    }
  }

  /** A connection that answers nothing yet can be handed to the pump. */
  lemma ConnectedOwes(s: State)
    requires s.pc.Round? && s.held.None? && QueueInFlight(s)
    requires forall l :: l in s.wire ==> OneOutcome(l)
    requires forall id :: Owing(s, id) <= One(KeptFor(s.t, s.pc.after, id))
    ensures Owes(Connected(s))
  {
    forall id ensures OwesId(Connected(s), id) {
      assert Owing(s, id) <= One(KeptFor(s.t, s.pc.after, id));
      assert Count(s.queue, id, false) + One(KeptFor(s.t, s.pc.after, id)) <= One(id in s.t.inFlight);
    }
  }

  lemma ConnectKeeps(s: State, order: seq<Id>)
    requires Inv1(s) && Enabled(s, ConnectOk(order))
    ensures Inv1(AfterConnect(s, order))
  {
    RoundQueue(s);
    match s.pc.after
    case Nothing => ConnectNothingKeeps(s, order);
    case ReplayDrop => ConnectReplayKeeps(s, order);
    case _ => ConnectResendKeeps(s, order);
  }

  lemma ConnectNothingKeeps(s: State, order: seq<Id>)
    requires Tables(s) && Conserved(s) && s.held.None? && s.pc.Round? && QueueInFlight(s) && s.pc.after.Nothing?
    ensures Inv1(AfterConnect(s, order))
  {
    var n := NoConnection(s);
    forall id ensures Owing(n, id) == 0 { NothingOwed(n, id); }
    ConnectedOwes(n);
  }

  /** A round goes on with a connection that answers nothing yet. */
  lemma NewConnectionOwes(s: State, s': State)
    requires s.pc.Round? && s'.pc.Round? && s'.pc.after == s.pc.after && QueueInFlight(s)
    requires s'.queue == s.queue && s'.t.inFlight == s.t.inFlight && s'.t.keptFirst == s.t.keptFirst
    requires s'.held.None? && s'.owed == {} && s'.wire == []
    ensures Owes(s')
  {
    forall id ensures OwesId(s', id) {
      NothingOwed(s', id);
      assert Count(s.queue, id, false) + One(KeptFor(s.t, s.pc.after, id)) <= One(id in s.t.inFlight);
    }
  }

  lemma ConnectReplayKeeps(s: State, order: seq<Id>)
    requires Tables(s) && Conserved(s) && s.held.None? && s.pc.Round? && QueueInFlight(s) && s.pc.after.ReplayDrop?
    requires DrainsAll(order, s.t)
    ensures Inv1(AfterConnect(s, order))
  {
    var s1 := NoConnection(s).(t := s.t.(replayStarted := true), readAt := |s.arrived|,
                               firstReplay := if s.firstReplay.None? then Some(|s.arrived|) else s.firstReplay);
    TablesFrame(s, s1);
    if s.t.initialize.None? || RequestId(s.t.initialize.value).None? {
      FailAttemptKeeps(s1, false, order);
    } else {
      TablesFrame(s, AfterConnect(s, order));
      NewConnectionOwes(s, AfterConnect(s, order));
    }
  }

  lemma ConnectResendKeeps(s: State, order: seq<Id>)
    requires Tables(s) && Conserved(s) && s.held.None? && s.pc.Round? && QueueInFlight(s) && Resends(s.pc.after)
    ensures Inv1(AfterConnect(s, order))
  {
    var s' := AfterConnect(s, order);
    forall id ensures OwesId(s', id) {
      NothingOwed(s', id);
      assert Count(s.queue, id, false) + One(KeptFor(s.t, s.pc.after, id)) <= One(id in s.t.inFlight);
    }
  }

  /** The connection after the kept request has been written to it. */
  function KeptWritten(s: State): State
    requires s.pc.Round? && s.pc.stage.WriteKept?
  {
    var kept := s.pc.stage.kept;
    s.(prefix := s.prefix + [kept.line], owed := s.owed + {kept.id}, resent := s.resent + multiset{kept.line.at})
  }

  lemma KeptWrittenOwing(s: State)
    requires Inv1(s) && s.pc.Round? && s.pc.stage.WriteKept?
    ensures forall id :: Owing(KeptWritten(s), id) <= One(KeptFor(s.t, s.pc.after, id))
  {
    forall id ensures Owing(KeptWritten(s), id) <= One(KeptFor(s.t, s.pc.after, id)) {
      assert OwesId(s, id);
    }
  }

  lemma AwaitsForward(s: State)
    requires Inv1(s) && s.pc.Round? && s.pc.stage.WriteKept? && s.pc.after != ResendKept
    ensures Owes(RoundWritten(s))
  {
    KeptWrittenOwing(s);
    forall id ensures OwesId(RoundWritten(s), id) {
      assert OwesId(s, id);
      assert Owing(KeptWritten(s), id) <= One(KeptFor(s.t, s.pc.after, id));
    }
  }

  lemma WriteKeptKeeps(s: State)
    requires Inv1(s) && s.pc.Round? && s.pc.stage.WriteKept?
    ensures Inv1(RoundWritten(s))
  {
    if s.pc.after == ResendKept {
      RoundQueue(s);
      KeptWrittenOwing(s);
      ConnectedOwes(KeptWritten(s));
    } else {
      AwaitsForward(s);
    }
  }

  lemma WriteInitializeKeeps(s: State)
    requires Inv1(s) && s.pc.Round? && s.pc.stage.WriteInitialize? && Writes(s.pc.stage)
    ensures Inv1(RoundWritten(s))
  {
    forall id ensures OwesId(RoundWritten(s), id) {
      assert OwesId(s, id);
    }
  }

  lemma WriteInitializedKeeps(s: State)
    requires Inv1(s) && s.pc.Round? && s.pc.stage.WriteInitialized?
    ensures Inv1(RoundWritten(s))
  {
    RoundQueue(s);
    var s1 := s.(prefix := s.prefix + [s.pc.stage.line]);
    forall id ensures Owing(s1, id) == 0 {
      assert OwesId(s, id);
    }
    ConnectedOwes(s1);
  }

  // ----- The reply to what a round has written

  /** An answer that is read in a round is the one awaited, and the last one owed. */
  lemma ReplyOwes(s: State)
    requires Inv1(s) && s.pc.Round? && s.wire != []
    ensures Owes(Popped(s))
    ensures forall id :: IsFor(s.wire[0], id, true) ==>
              Awaited(s.pc.stage, id) && forall other :: Owing(Popped(s), other) == 0
  {
    CountPop(s.wire);
    forall id ensures OwesId(Popped(s), id) {
      assert OwesId(s, id);
    }
    forall id | IsFor(s.wire[0], id, true)
      ensures Awaited(s.pc.stage, id) && forall other :: Owing(Popped(s), other) == 0
    {
      assert OwesId(s, id);
      forall other ensures Owing(Popped(s), other) == 0 {
        assert OwesId(s, other);
      }
    }
  }

  lemma ForwardReplyKeeps(s: State, id: Id)
    requires Inv1(s) && s.pc.Round? && s.pc.stage == AwaitForward(id) && s.wire != []
    requires IsFor(s.wire[0], id, true)
    ensures Inv1(Connected(Forwarded(s)))
  {
    var line, s1 := s.wire[0], Popped(s);
    ReplyOwes(s);
    RoundQueue(s);
    DeliverConserves(s1, line);
    DeliverTables(s.t, line, s.arrived, s.errored);
    DaemonLineTracked(s.t, line);
    var s' := Connected(Forwarded(s));
    forall other ensures OwesId(s', other) {
      assert Count(s.queue, other, false) + One(KeptFor(s.t, s.pc.after, other)) <= One(other in s.t.inFlight);
      assert Owing(s1, other) == 0;
    }
  }

  lemma RoundReadKeeps(s: State, order: seq<Id>)
    requires Inv1(s) && Enabled(s, RoundRead(order))
    ensures Inv1(RoundReadLine(s, order))
  {
    ReplyOwes(s);
    RoundQueue(s);
    var line, s1 := s.wire[0], Popped(s);
    match s.pc.stage
    case AwaitForward(id) =>
      if ResponseOutcome(line, id).Some? { ForwardReplyKeeps(s, id); }
    case AwaitReplay(id, cached) =>
      if ResponseOutcome(line, id).Some? { ReplayReplyKeeps(s, order, id); }
    case _ =>
  }

  lemma ReplayGoesOn(s: State, order: seq<Id>, id: Id)
    requires Inv1(s) && s.pc.Round? && s.pc.stage.AwaitReplay? && s.pc.stage.replayId == id && s.wire != []
    requires s.pc.stage.cached.Some? && ResponseOutcome(s.wire[0], id) == Some(Success)
    requires Owes(Popped(s)) && forall other :: Owing(Popped(s), other) == 0
    ensures Inv1(RoundReadLine(s, order))
  {
    forall other ensures OwesId(RoundReadLine(s, order), other) {
      assert OwesId(Popped(s), other);
      assert Owing(Popped(s), other) == 0;
    }
  }

  lemma ReplayReplyKeeps(s: State, order: seq<Id>, id: Id)
    requires Inv1(s) && s.pc.Round? && s.pc.stage.AwaitReplay? && s.pc.stage.replayId == id && s.wire != []
    requires DrainsAll(order, s.t) && IsFor(s.wire[0], id, true) && ResponseOutcome(s.wire[0], id).Some?
    ensures Inv1(RoundReadLine(s, order))
  {
    ReplyOwes(s);
    RoundQueue(s);
    if ResponseOutcome(s.wire[0], id) == Some(Error) {
      FailAttemptKeeps(Popped(s), true, order);
    } else if s.pc.stage.cached.Some? {
      ReplayGoesOn(s, order, id);
    } else {
      ConnectedOwes(Popped(s));
    }
  }

  // ----- All steps

  lemma StepKeeps1(s: State, e: Event)
    requires Inv1(s) && Enabled(s, e)
    ensures Inv1(Step(s, e))
  {
    match e
    case Client(line) =>
      match s.pc {
        case Forward => ClientForwardKeeps(s, line);
        case Disconnected => ClientDisconnectedKeeps(s, line);
        case _ => ClientRoundKeeps(s, line);
      }
    case Eof => MoveKeeps(s, if s.pc.Forward? then Drain else Exited(0));
    case DaemonAnswer(id, ok) => DaemonKeeps(s, Response(id, ok), s.owed - {id});
    case DaemonOther(line) => DaemonKeeps(s, line, s.owed);
    case PumpRead => PumpReadKeeps(s);
    case PumpDeliver => DeliverHeldKeeps(s);
    case FlushWrite(ok) => FlushWriteKeeps(s, ok);
    case FlushDone => MoveKeeps(s, Forward);
    case WriteDone(ok) => WriteDoneKeeps(s, ok);
    case Lost => MoveKeeps(s, Losing);
    case LossDone(order) => LossKeeps(s, order);
    case Exit => MoveKeeps(s, Exited(0));
    case ConnectOk(order) => ConnectKeeps(s, order);
    case AttemptFail(retryable, order) =>
      RoundQueue(s);
      FailAttemptKeeps(s, retryable, order);
    case RoundWrite =>
      match s.pc.stage {
        case WriteKept(_) => WriteKeptKeeps(s);
        case WriteInitialize(_, _) => WriteInitializeKeeps(s);
        case _ => WriteInitializedKeeps(s);
      }
    case RoundRead(order) => RoundReadKeeps(s, order);
  }
}
