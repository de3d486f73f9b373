/** What daemons answer: which replies let a round go on, what reaches stdout, and what ends the proxy. */
module ProxyReplies {
  import opened Wrappers
  import opened Track
  import opened Proxy
  import opened ProxyInvariant
  import opened ProxySteps
  import opened ProxyLayer1
  import opened ProxyLayer3
  import opened ProxyLoop
  import opened ProxyTheorems
  import opened ProxyReplays

  // ----- The reply that a round has waited for

  /** A response to `id` that has a result and no error. */
  predicate Accepts(line: Line, id: Id) {
    line.env.Some? && line.env.value.verb.None? && line.env.value.id == Some(id)
    && line.env.value.hasResult && !line.env.value.hasError
  }

  predicate Refuses(line: Line, id: Id) {
    line.env.Some? && line.env.value.verb.None? && line.env.value.id == Some(id) && line.env.value.hasError
  }

  /** The daemon at the other end has accepted what it was first sent. */
  ghost predicate Accepted(s: State) {
    && s.prefix != [] && RequestId(s.prefix[0]).Some?
    && exists k :: 0 <= k < |s.replies| && Accepts(s.replies[k], RequestId(s.prefix[0]).value)
  }

  /** It has answered what it was first sent, and the answer has been put on stdout. */
  ghost predicate Relayed(s: State) {
    && s.prefix != [] && RequestId(s.prefix[0]).Some?
    && var id := RequestId(s.prefix[0]).value;
       exists k :: 0 <= k < |s.replies| && (Accepts(s.replies[k], id) || Refuses(s.replies[k], id)) && DaemonLine(s.replies[k]) in s.out
  }

  ghost predicate Replied(s: State) {
    match s.pc
    case Round(_, _, stage) =>
      (match stage
       case AwaitForward(id) => s.prefix != [] && RequestId(s.prefix[0]) == Some(id)
       case AwaitReplay(id, _) => s.prefix != [] && RequestId(s.prefix[0]) == Some(id)
       case WriteInitialized(_) => Accepted(s)
       case _ => true)
    case Disconnected => true
    case Exited(_) => true
    case _ => (s.via.ReplayDrop? ==> Accepted(s)) && (s.via.ReplayForward? ==> Relayed(s))
  }

  /** While a connection is up, nothing that this rests on changes. */
  lemma StaysReplied(s: State, s': State)
    requires Replied(s) && PumpRuns(s.pc) && (PumpRuns(s'.pc) || s'.pc.Exited?)
    requires s'.via == s.via && s'.prefix == s.prefix && s'.replies == s.replies && s.out <= s'.out
    ensures Replied(s')
  {
    if s.via.ReplayForward? && PumpRuns(s'.pc) {
      var id := RequestId(s.prefix[0]).value;
      var k :| 0 <= k < |s.replies| && (Accepts(s.replies[k], id) || Refuses(s.replies[k], id)) && DaemonLine(s.replies[k]) in s.out;
      assert DaemonLine(s'.replies[k]) in s'.out;
    }
  }

  lemma WriteReplied(s: State)
    requires Inv(s) && Replied(s) && Enabled(s, RoundWrite)
    ensures Replied(RoundWritten(s))
  {
    match s.pc.stage
    case WriteKept(kept) =>
      assert Entry(s.t.inFlight[kept.id], kept.id, s.arrived, s.errored);
    case WriteInitialized(line) =>
      var k :| 0 <= k < |s.replies| && Accepts(s.replies[k], RequestId(s.prefix[0]).value);
      assert RoundWritten(s).replies == s.replies && RoundWritten(s).prefix[0] == s.prefix[0];
    case _ =>
  }

  lemma ForwardReplied(s: State, order: seq<Id>, id: Id)
    requires s.pc.Round? && s.pc.stage == AwaitForward(id) && s.wire != [] && s.via.ReplayForward?
    requires s.prefix != [] && RequestId(s.prefix[0]) == Some(id)
    ensures Replied(RoundReadLine(s, order))
  {
    if ResponseOutcome(s.wire[0], id).Some? {
      var s', n := RoundReadLine(s, order), |s.replies|;
      assert s'.replies[n] == s.wire[0] && s'.out[|s.out|] == DaemonLine(s.wire[0]);
    }
  }

  lemma ReplayReplied(s: State, order: seq<Id>, id: Id)
    requires s.pc.Round? && s.pc.stage.AwaitReplay? && s.pc.stage.replayId == id && s.wire != [] && s.via.ReplayDrop?
    requires s.prefix != [] && RequestId(s.prefix[0]) == Some(id)
    ensures Replied(RoundReadLine(s, order))
  {
    var s', n := RoundReadLine(s, order), |s.replies|;
    assert Popped(s).replies[n] == s.wire[0];
    if ResponseOutcome(s.wire[0], id) == Some(Success) { assert Accepts(s'.replies[n], id); }
  }

  lemma ReadReplied(s: State, order: seq<Id>)
    requires Inv(s) && Replied(s) && Enabled(s, RoundRead(order))
    ensures Replied(RoundReadLine(s, order))
  {
    match s.pc.stage
    case AwaitForward(id) => ForwardReplied(s, order, id);
    case AwaitReplay(id, _) => ReplayReplied(s, order, id);
  }

  lemma LoopReplied(s: State, e: Event)
    requires Replied(s) && Enabled(s, e)
    requires !e.RoundWrite? && !e.RoundRead? && !e.LossDone? && !e.ConnectOk?
    ensures Replied(Step(s, e))
  {
    if PumpRuns(s.pc) { StaysReplied(s, Step(s, e)); }
  }

  lemma ConnectReplied(s: State, order: seq<Id>)
    requires s.pc.Round? && s.via == s.pc.after
    ensures Replied(AfterConnect(s, order))
  {
  }

  lemma StepReplied(s: State, e: Event)
    requires Inv(s) && Replied(s) && Enabled(s, e)
    ensures Replied(Step(s, e))
  {
    match e
    case RoundWrite => WriteReplied(s);
    case RoundRead(order) => ReadReplied(s, order);
    case ConnectOk(order) => ConnectReplied(s, order);
    case LossDone(order) => AnswerLossShape(Unplug(s), AttemptsCarried(s.pending, Unplug(s).t), order);
    case _ => LoopReplied(s, e);
  }

  lemma {:induction false} RunReplied(s: State, es: seq<Event>)
    requires Inv(s) && Replied(s) && Valid(s, es)
    ensures Replied(Exec(s, es))
    decreases |es|
  {
    if es != [] {
      StepKeeps(s, es[0]);
      StepReplied(s, es[0]);
      RunReplied(Step(s, es[0]), es[1..]);
    }
  }

  /**
   Over all runs: a connection that came by a replay has read, for the request it was first sent, a
   response with a result and no error; nothing of the handshake or the queue goes to a daemon that
   has not accepted it. One that came by a forwarded request has put the response on stdout.
   */
  lemma OnlyAcceptedSessionsGoOn(es: seq<Event>)
    requires Valid(START, es)
    requires var s := Exec(START, es); Plugged(s) || (s.pc.Round? && s.pc.stage.WriteInitialized?)
    ensures var s := Exec(START, es);
            && (s.via.ReplayDrop? || s.pc.Round? ==> Accepted(s))
            && (s.via.ReplayForward? && Plugged(s) ==> Relayed(s))
  {
    StartHasInv();
    RunReplied(START, es);
  }

  /** A refusal spends the attempt, and the third one ends the round with all in flight answered. */
  predicate Spent(s: State, s': State, order: seq<Id>)
    requires s.pc.Round?
  {
    && s'.queue == (if s.pc.attempts < MAX_ATTEMPTS then s.queue else [])
    && s'.out == (if s.pc.attempts < MAX_ATTEMPTS then s.out else s.out + Answer(order))
    && s'.t.inFlight == (if s.pc.attempts < MAX_ATTEMPTS then s.t.inFlight else map[])
    && s'.pc == if s.pc.attempts < MAX_ATTEMPTS then Round(s.pc.after, s.pc.attempts + 1, Connecting) else Disconnected
  }

  /** The proxy goes on to `pc`, and no request has been answered or dropped. */
  predicate GoesOn(s: State, s': State, pc: Pc) {
    s'.pc == pc && s'.t.inFlight == s.t.inFlight && s'.queue == s.queue && s'.out == s.out
  }

  /**
   What each line of a reply does to a replay: a refusal spends the attempt; an acceptance goes on in
   the same attempt, with the notification if one was cached; any other line is passed over.
   */
  lemma ReplayReplies(es: seq<Event>, order: seq<Id>)
    requires Valid(START, es) && Enabled(Exec(START, es), RoundRead(order)) && Exec(START, es).pc.stage.AwaitReplay?
    ensures var s := Exec(START, es);
            var s', line := Step(s, RoundRead(order)), s.wire[0];
            && s.prefix != [] && RequestId(s.prefix[0]).Some?
            && var id := RequestId(s.prefix[0]).value;
               && (Refuses(line, id) ==> Spent(s, s', order))
               && (Accepts(line, id) ==>
                     GoesOn(s, s', if s.pc.stage.cached.None? then Flush
                                   else s.pc.(stage := WriteInitialized(s.pc.stage.cached.value))))
               && (!Refuses(line, id) && !Accepts(line, id) ==> GoesOn(s, s', s.pc))
  {
    RunHasInv(es);
    StartHasInv();
    RunReplied(START, es);
    OneReply(Exec(START, es), order);
  }

  lemma OneReply(s: State, order: seq<Id>)
    requires s.pc.Round? && s.pc.stage.AwaitReplay? && s.wire != [] && s.t.initialised
    ensures var s' := RoundReadLine(s, order);
            var id, line := s.pc.stage.replayId, s.wire[0];
            && (Refuses(line, id) ==> Spent(s, s', order))
            && (Accepts(line, id) ==>
                  GoesOn(s, s', if s.pc.stage.cached.None? then Flush
                                else s.pc.(stage := WriteInitialized(s.pc.stage.cached.value))))
            && (!Refuses(line, id) && !Accepts(line, id) ==> GoesOn(s, s', s.pc))
  {
  }

  // ----- What reaches stdout

  /** The daemons' lines on stdout. */
  function FromDaemons(out: seq<Out>): seq<Line> {
    if out == [] then []
    else FromDaemons(out[..|out| - 1]) + if out[|out| - 1].DaemonLine? then [out[|out| - 1].line] else []
  }

  ghost predicate Delivers(s: State) {
    FromDaemons(s.out) + Opt(s.held) == s.taken
  }

  lemma FromDaemonsPush(out: seq<Out>, o: Out)
    ensures FromDaemons(out + [o]) == FromDaemons(out) + if o.DaemonLine? then [o.line] else []
  {
    assert (out + [o])[..|out|] == out;
  }

  lemma {:induction false} ErrorsAreOurs(out: seq<Out>, ids: seq<Id>)
    ensures FromDaemons(out + Answer(ids)) == FromDaemons(out)
    decreases |ids|
  {
    if ids == [] {
      assert out + [] == out;
    } else {
      FromDaemonsPush(out, OwnError(ids[0]));
      ErrorsAreOurs(out + [OwnError(ids[0])], ids[1..]);
      assert out + ([OwnError(ids[0])] + Answer(ids[1..])) == out + [OwnError(ids[0])] + Answer(ids[1..]);
    }
  }

  lemma LossDelivers(s: State, order: seq<Id>)
    requires Delivers(s) && s.pc.Losing?
    ensures Delivers(OnLoss(s, order))
  {
    if s.held.Some? { FromDaemonsPush(s.out, DaemonLine(s.held.value)); }
    ErrorsAreOurs(Unplug(s).out, order);
    AnswerLossShape(Unplug(s), AttemptsCarried(s.pending, Unplug(s).t), order);
    assert OnLoss(s, order).taken == s.taken;
  }

  /** Nothing new is on stdout but the proxy's own errors. */
  predicate OwnErrorsOnly(s: State, s': State, order: seq<Id>) {
    (s'.out == s.out || s'.out == s.out + Answer(order)) && s'.held == s.held && s'.taken == s.taken
  }

  lemma OwnErrorsDeliver(s: State, s': State, order: seq<Id>)
    requires Delivers(s) && OwnErrorsOnly(s, s', order)
    ensures Delivers(s')
  {
    ErrorsAreOurs(s.out, order);
  }

  lemma ConnectDelivers(s: State, order: seq<Id>)
    requires s.pc.Round?
    ensures OwnErrorsOnly(s, AfterConnect(s, order), order)
  {
  }

  lemma ReadDelivers(s: State, order: seq<Id>)
    requires s.pc.Round? && Awaits(s.pc.stage) && s.wire != []
    ensures var s', line := RoundReadLine(s, order), s.wire[0];
            || OwnErrorsOnly(s, s', order)
            || (s'.out == s.out + [DaemonLine(line)] && s'.taken == s.taken + [line] && s'.held == s.held)
  {
  }

  lemma StepDelivers(s: State, e: Event)
    requires Inv(s) && Delivers(s) && Enabled(s, e)
    ensures Delivers(Step(s, e))
  {
    match e
    case LossDone(order) => LossDelivers(s, order);
    case ConnectOk(order) => ConnectDelivers(s, order); OwnErrorsDeliver(s, Step(s, e), order);
    case AttemptFail(_, order) => OwnErrorsDeliver(s, Step(s, e), order);
    case RoundRead(order) =>
      ReadDelivers(s, order);
      if OwnErrorsOnly(s, Step(s, e), order) { OwnErrorsDeliver(s, Step(s, e), order); }
      FromDaemonsPush(s.out, DaemonLine(s.wire[0]));
    case PumpDeliver => FromDaemonsPush(s.out, DaemonLine(s.held.value));
    case _ => OthersDeliver(s, e);
  }

  lemma OthersDeliver(s: State, e: Event)
    requires Delivers(s) && Enabled(s, e)
    requires !e.LossDone? && !e.ConnectOk? && !e.AttemptFail? && !e.RoundRead? && !e.PumpDeliver?
    ensures Delivers(Step(s, e))
  {
  }

  lemma {:induction false} RunDelivers(s: State, es: seq<Event>)
    requires Inv(s) && Delivers(s) && Valid(s, es)
    ensures Delivers(Exec(s, es))
    decreases |es|
  {
    if es != [] {
      StepKeeps(s, es[0]);
      StepDelivers(s, es[0]);
      RunDelivers(Step(s, es[0]), es[1..]);
    }
  }

  /**
   Over all runs, every line that the pump has read and every reply that a round forwards is put on
   stdout, once and in the order they were read, but for the one that the pump still holds.
   */
  lemma WhatIsReadIsDelivered(es: seq<Event>)
    requires Valid(START, es)
    ensures var s := Exec(START, es); FromDaemons(s.out) + Opt(s.held) == s.taken
  {
    StartHasInv();
    RunDelivers(START, es);
  }

  // ----- What initialises a session

  /** The daemon's line that an event puts on stdout. */
  ghost function DeliveredBy(s: State, e: Event): Option<Line>
    requires Enabled(s, e)
  {
    match e
    case PumpDeliver => s.held
    case LossDone(_) => s.held
    case RoundRead(_) =>
      if s.pc.stage.AwaitForward? && ResponseOutcome(s.wire[0], s.pc.stage.forwardId).Some? then Some(s.wire[0]) else None
    case _ => None
  }

  /** It is a success for a request in flight that is neither a ping nor a discovery. */
  ghost predicate Initialises(s: State, e: Event)
    requires Enabled(s, e)
  {
    var line := DeliveredBy(s, e);
    && line.Some? && IsResponse(line.value) && line.value.env.value.hasResult
    && var id := line.value.env.value.id.value;
       id in s.t.inFlight && s.t.inFlight[id].verb != "ping" && s.t.inFlight[id].verb != "server/discover"
  }

  lemma StepInitialises(s: State, e: Event)
    requires Enabled(s, e)
    ensures Step(s, e).t.initialised <==> s.t.initialised || Initialises(s, e)
  {
    match e
    case LossDone(order) => AnswerLossShape(Unplug(s), AttemptsCarried(s.pending, Unplug(s).t), order);
    case ConnectOk(_) => RoundInitialises(s, e);
    case RoundRead(_) => RoundInitialises(s, e);
    case _ =>
  }

  lemma RoundInitialises(s: State, e: Event)
    requires Enabled(s, e) && (e.ConnectOk? || e.RoundRead?)
    ensures Step(s, e).t.initialised <==> s.t.initialised || Initialises(s, e)
  {
  }

  ghost predicate InitialisedAt(es: seq<Event>, n: nat) {
    n < |es| && Valid(START, es[..n]) && Enabled(Exec(START, es[..n]), es[n]) && Initialises(Exec(START, es[..n]), es[n])
  }

  ghost predicate InitialisedIn(es: seq<Event>) {
    exists n :: InitialisedAt(es, n)
  }

  lemma InitialisedAtPrefix(es: seq<Event>, n: nat)
    requires n < |es| - 1
    ensures InitialisedAt(es[..|es| - 1], n) <==> InitialisedAt(es, n)
  {
    assert es[..|es| - 1][..n] == es[..n];
  }

  lemma InitialisedInGrows(es: seq<Event>)
    requires es != []
    ensures InitialisedIn(es) <==> InitialisedIn(es[..|es| - 1]) || InitialisedAt(es, |es| - 1)
  {
    var last := |es| - 1;
    if n: nat :| InitialisedAt(es, n) && n < last { InitialisedAtPrefix(es, n); }
    if n: nat :| InitialisedAt(es[..last], n) { InitialisedAtPrefix(es, n); }
  }

  /** Over all runs, the session is initialised just if such a success has been delivered. */
  lemma {:induction false} InitialisedIff(es: seq<Event>)
    requires Valid(START, es)
    ensures Exec(START, es).t.initialised <==> InitialisedIn(es)
  {
    if es != [] {
      var n := |es| - 1;
      RunUnfolds(START, es);
      InitialisedIff(es[..n]);
      StepInitialises(Exec(START, es[..n]), es[n]);
      InitialisedInGrows(es);
    }
  }

  // ----- The link

  /** What the tracker is told of the link, once a connection has been lost, and before. */
  predicate LinkFits(s: State, lost: bool) {
    match s.pc
    case Disconnected => s.t.link == Down && lost
    case Round(_, _, _) => if lost then s.t.link == Reconnecting else s.t.link == Up && !s.t.initialised
    case Exited(_) => true
    case _ => s.t.link == Up
  }

  lemma StepKeepsLink(s: State, e: Event, lost: bool)
    requires LinkFits(s, lost) && Enabled(s, e)
    ensures LinkFits(Step(s, e), lost || e.LossDone?)
  {
    match e
    case LossDone(order) => LossLink(s, order);
    case ConnectOk(order) => ConnectKeepsLink(s, order, lost);
    case RoundRead(order) => ReadKeepsLink(s, order, lost);
    case Client(line) => ClientKeepsLink(s, line, lost);
    case _ => OthersKeepLink(s, e, lost);
  }

  lemma OthersKeepLink(s: State, e: Event, lost: bool)
    requires LinkFits(s, lost) && Enabled(s, e)
    requires !e.LossDone? && !e.ConnectOk? && !e.RoundRead? && !e.Client?
    ensures LinkFits(Step(s, e), lost)
  {
  }

  lemma ClientKeepsLink(s: State, line: Line, lost: bool)
    requires LinkFits(s, lost) && (s.pc.Forward? || s.pc.Disconnected? || s.pc.Round?)
    ensures LinkFits(ReadClient(s, line), lost)
  {
  }

  lemma LossLink(s: State, order: seq<Id>)
    requires s.pc.Losing?
    ensures LinkFits(OnLoss(s, order), true)
  {
    assert Unplug(s).t.link == Down;
  }

  lemma ConnectKeepsLink(s: State, order: seq<Id>, lost: bool)
    requires LinkFits(s, lost) && s.pc.Round?
    ensures LinkFits(AfterConnect(s, order), lost)
  {
  }

  lemma ReadKeepsLink(s: State, order: seq<Id>, lost: bool)
    requires LinkFits(s, lost) && s.pc.Round? && Awaits(s.pc.stage) && s.wire != []
    ensures LinkFits(RoundReadLine(s, order), lost)
  {
  }

  ghost predicate HasLost(es: seq<Event>) {
    exists e :: e in es && e.LossDone?
  }

  lemma HasLostGrows(es: seq<Event>)
    requires es != []
    ensures HasLost(es) <==> HasLost(es[..|es| - 1]) || es[|es| - 1].LossDone?
  {
    assert es == es[..|es| - 1] + [es[|es| - 1]];
  }

  /**
   Over all runs, the tracker is told that the link is up just while a connection is, or the first one
   is being made; that it is down while no request wants one; and otherwise that one is being made.
   */
  lemma {:induction false} LinkIs(es: seq<Event>)
    requires Valid(START, es)
    ensures LinkFits(Exec(START, es), HasLost(es))
  {
    if es != [] {
      var n := |es| - 1;
      RunUnfolds(START, es);
      LinkIs(es[..n]);
      HasLostGrows(es);
      StepKeepsLink(Exec(START, es[..n]), es[n], HasLost(es[..n]));
    }
  }

  // ----- What a round is for

  /** The client's line `line` is the kept request, and it is in flight. */
  ghost predicate KeptIs(s: State, line: Line) {
    && IsRequest(line) && line.at < |s.arrived| && s.arrived[line.at] == line
    && s.t.keptFirst.Some? && s.t.keptFirst.value.line == line && RequestId(line).value in s.t.inFlight
    && s.t.inFlight[RequestId(line).value].at == line.at
  }

  /**
   Over all runs, what each round is for: an initialised session replays its handshake if it has one;
   before that, a kept `initialize` is forwarded, another kept request is sent again, and none of them
   is a ping or a discovery.
   */
  lemma WhatRoundsAreFor(es: seq<Event>)
    requires Valid(START, es) && Exec(START, es).pc.Round?
    ensures var s := Exec(START, es);
            match s.pc.after
            case Nothing => s.t.initialised ==> s.t.initialize.None?
            case ReplayDrop => s.t.initialised && s.t.initialize.Some?
            case _ =>
              && !s.t.initialised && s.t.keptFirst.Some?
              && var line := s.t.keptFirst.value.line;
                 && KeptIs(s, line) && line.env.value.verb.value != "ping" && line.env.value.verb.value != "server/discover"
                 && (s.pc.after.ReplayForward? <==> line.env.value.verb == Some("initialize"))
  {
    RunHasInv(es);
    var s := Exec(START, es);
    if Resends(s.pc.after) { KeptIsARequest(s); }
  }

  lemma KeptIsARequest(s: State)
    requires Entries(s.t, s.arrived, s.errored) && KeptOk(s.t, s.arrived) && s.t.keptFirst.Some?
    ensures var kept := s.t.keptFirst.value;
            && KeptIs(s, kept.line)
            && CountsForLifecycle(kept.line.env.value.verb.value)
            && (kept.initialize <==> kept.line.env.value.verb == Some("initialize"))
  {
    var kept := s.t.keptFirst.value;
    assert Entry(s.t.inFlight[kept.id], kept.id, s.arrived, s.errored);
  }

  // ----- What ends the proxy

  /** A round that has no attempt left to make. */
  ghost predicate LastAttemptFails(s: State, e: Event)
    requires s.pc.Round? && Enabled(s, e)
  {
    var last := s.pc.attempts >= MAX_ATTEMPTS;
    match e
    case AttemptFail(retryable, _) => !retryable || last
    case ConnectOk(_) =>
      || (Resends(s.pc.after) && s.t.keptFirst.None?)
      || (s.pc.after.ReplayDrop? && (s.t.initialize.None? || RequestId(s.t.initialize.value).None?))
    case RoundRead(_) => s.pc.stage.AwaitReplay? && Refuses(s.wire[0], s.pc.stage.replayId) && last
    case _ => false
  }

  /**
   The proxy ends in success just when its input does, and in failure just when a request pending
   since its re-send is lost with the attempts spent, or a round fails before the session is initialised.
   */
  lemma ExitReasons(s: State, e: Event)
    requires Enabled(s, e) && !s.pc.Exited?
    ensures Step(s, e).pc == Exited(0) <==> e.Exit? || (e.Eof? && !s.pc.Forward?)
    ensures Step(s, e).pc == Exited(1) <==>
              || (e.LossDone? && Kept(Unplug(s).t).Some? && AttemptsCarried(s.pending, Unplug(s).t) >= MAX_ATTEMPTS)
              || (s.pc.Round? && LastAttemptFails(s, e) && !s.t.initialised)
  {
  }
}
