/** The third layer, kept by every step: client lines go out in order, none lost, none twice. */
module ProxyLayer3 {
  import opened Wrappers
  import opened Track
  import opened Proxy
  import opened ProxyInvariant
  import opened ProxySteps
  import opened ProxyLayer1
  import opened ProxyLayer2

  lemma UnskippedPush(lines: seq<Line>, line: Line, skipped: set<nat>)
    ensures Unskipped(lines + [line], skipped)
            == Unskipped(lines, skipped) + if line.at in skipped then [] else [line]
  {
    assert (lines + [line])[..|lines|] == lines;
  }

  lemma {:induction false} UnskippedSame(lines: seq<Line>, skipped: set<nat>, more: set<nat>)
    requires forall l :: l in lines ==> (l.at in skipped <==> l.at in more)
    ensures Unskipped(lines, skipped) == Unskipped(lines, more)
  {
    if lines != [] {
      UnskippedSame(lines[..|lines| - 1], skipped, more);
    }
  }

  /** A new line goes behind the lines of the current link, unless it is skipped. */
  lemma ArrivalOrder(s: State, line: Line)
    requires Histories(s) && line.at == |s.arrived|
    ensures Unskipped((s.arrived + [line])[s.base..], s.skipped) == Unskipped(s.arrived[s.base..], s.skipped) + [line]
    ensures Unskipped((s.arrived + [line])[s.base..], s.skipped + {line.at}) == Unskipped(s.arrived[s.base..], s.skipped)
  {
    var a := s.arrived[s.base..];
    assert (s.arrived + [line])[s.base..] == a + [line];
    UnskippedPush(a, line, s.skipped);
    UnskippedPush(a, line, s.skipped + {line.at});
    UnskippedSame(a, s.skipped, s.skipped + {line.at});
  }

  lemma ClientForwardKeeps3(s: State, line: Line)
    requires Histories(s) && Ordered(s) && Skips(s) && Shaped(s) && s.pc.Forward? && Fresh(s, line)
    ensures Ordered(ReadClient(s, line)) && Skips(ReadClient(s, line))
  {
    ArrivalOrder(s, line);
    SessionStays(s.t, line);
  }

  lemma ClientDisconnectedKeeps3(s: State, line: Line)
    requires Histories(s) && Shaped(s) && s.pc.Disconnected? && s.queue == [] && Fresh(s, line)
    ensures Ordered(ReadClient(s, line)) && Skips(ReadClient(s, line))
  {
    if IsRequest(line) {
      RequestTracked(s.t, line);
      ArrivalOrder(s, line);
      assert s.arrived[s.base..] == [];
    } else {
      OtherTracked(s.t, line);
    }
  }

  /** In a round a notification is skipped exactly when the replay has not read the cache yet. */
  lemma SkippedInRound(s: State, line: Line)
    requires Shaped(s) && s.pc.Round? && KeptOk(s.t, s.arrived)
    ensures OnClientLine(s.t, line).1 == CacheOnly <==>
            s.via.ReplayDrop? && IsInitialized(line) && s.firstReplay.None?
  {
    if IsRequest(line) { RequestTracked(s.t, line); } else { OtherTracked(s.t, line); }
  }

  lemma ClientRoundKeeps3(s: State, line: Line)
    requires Histories(s) && Ordered(s) && Skips(s) && Shaped(s) && s.pc.Round? && Fresh(s, line)
    requires KeptOk(s.t, s.arrived)
    ensures Ordered(ReadClient(s, line)) && Skips(ReadClient(s, line))
  {
    SkippedInRound(s, line);
    SessionStays(s.t, line);
    ArrivalOrder(s, line);
  }

  lemma SendKeeps3(s: State, e: Event)
    requires Ordered(s) && Skips(s) && Enabled(s, e) && (e.FlushWrite? || e.WriteDone?)
    ensures Ordered(Step(s, e)) && Skips(Step(s, e))
  {
    if e.FlushWrite? {
      assert s.sent + s.queue == (s.sent + [s.queue[0]]) + s.queue[1..];
    }
  }

  lemma LossKeeps3(s: State, used: nat, order: seq<Id>)
    requires s.queue == []
    ensures Ordered(AnswerLoss(s, used, order)) && Skips(AnswerLoss(s, used, order))
  {
    assert s.arrived[|s.arrived|..] == [];
  }

  lemma FailAttemptKeeps3(s: State, retryable: bool, order: seq<Id>)
    requires s.pc.Round? && Shaped(s) && Ordered(s) && Skips(s)
    ensures Ordered(FailAttempt(s, retryable, order)) && Skips(FailAttempt(s, retryable, order))
  {
  }

  lemma ConnectKeeps3(s: State, order: seq<Id>)
    requires Enabled(s, ConnectOk(order)) && Shaped(s) && Ordered(s) && Skips(s)
    ensures Ordered(AfterConnect(s, order)) && Skips(AfterConnect(s, order))
  {
  }

  lemma RoundWriteKeeps3(s: State)
    requires Enabled(s, RoundWrite) && Ordered(s) && Skips(s)
    ensures Ordered(RoundWritten(s)) && Skips(RoundWritten(s))
  {
  }

  lemma ForwardReplyKeeps3(s: State, order: seq<Id>)
    requires s.pc.Round? && s.pc.stage.AwaitForward? && s.wire != [] && Ordered(s) && Skips(s)
    ensures Ordered(RoundReadLine(s, order)) && Skips(RoundReadLine(s, order))
  {
  }

  lemma ReplayReplyKeeps3(s: State, order: seq<Id>)
    requires s.pc.Round? && s.pc.stage.AwaitReplay? && s.wire != [] && Shaped(s) && Ordered(s) && Skips(s)
    ensures Ordered(RoundReadLine(s, order)) && Skips(RoundReadLine(s, order))
  {
    if ResponseOutcome(s.wire[0], s.pc.stage.replayId) == Some(Error) {
      FailAttemptKeeps3(Popped(s), true, order);
    } else {
      ReplayGoesOn3(s, order);
    }
  }

  lemma ReplayGoesOn3(s: State, order: seq<Id>)
    requires s.pc.Round? && s.pc.stage.AwaitReplay? && s.wire != [] && Shaped(s) && Ordered(s) && Skips(s)
    requires ResponseOutcome(s.wire[0], s.pc.stage.replayId) != Some(Error)
    ensures Ordered(RoundReadLine(s, order)) && Skips(RoundReadLine(s, order))
  {
  }

  lemma QuietKeeps3(s: State, e: Event)
    requires Shaped(s) && Ordered(s) && Skips(s) && Enabled(s, e)
    requires e.Eof? || e.DaemonAnswer? || e.DaemonOther? || e.PumpRead? || e.PumpDeliver? || e.FlushDone?
             || e.Lost? || e.Exit?
    ensures Ordered(Step(s, e)) && Skips(Step(s, e))
  {
  }

  lemma ClientKeeps3(s: State, line: Line)
    requires Inv(s) && Enabled(s, Client(line))
    ensures Ordered(ReadClient(s, line)) && Skips(ReadClient(s, line))
  {
    match s.pc
    case Forward => ClientForwardKeeps3(s, line);
    case Disconnected => ClientDisconnectedKeeps3(s, line);
    case _ => ClientRoundKeeps3(s, line);
  }

  lemma StepKeeps3(s: State, e: Event)
    requires Inv(s) && Enabled(s, e)
    ensures Ordered(Step(s, e)) && Skips(Step(s, e))
  {
    match e
    case Client(line) => ClientKeeps3(s, line);
    case FlushWrite(_) => SendKeeps3(s, e);
    case WriteDone(_) => SendKeeps3(s, e);
    case LossDone(order) => LossKeeps3(Unplug(s), AttemptsCarried(s.pending, Unplug(s).t), order);
    case ConnectOk(order) => ConnectKeeps3(s, order);
    case AttemptFail(retryable, order) => FailAttemptKeeps3(s, retryable, order);
    case RoundWrite => RoundWriteKeeps3(s);
    case RoundRead(order) =>
      if s.pc.stage.AwaitReplay? { ReplayReplyKeeps3(s, order); } else { ForwardReplyKeeps3(s, order); }
    case _ => QuietKeeps3(s, e);
  }

  /** The invariant is inductive. */
  lemma StepKeeps(s: State, e: Event)
    requires Inv(s) && Enabled(s, e)
    ensures Inv(Step(s, e))
  {
    StepKeeps1(s, e);
    StepKeeps2(s, e);
    StepKeeps3(s, e);
  }

  lemma {:induction false} RunKeeps(s: State, es: seq<Event>)
    requires Inv(s) && Valid(s, es)
    ensures Inv(Exec(s, es))
    decreases |es|
  {
    if es != [] {
      StepKeeps(s, es[0]);
      RunKeeps(Step(s, es[0]), es[1..]);
    }
  }
}
