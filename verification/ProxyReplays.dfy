/** The handshake that a replay sends: when it holds an answered request, and what it may leave out or repeat. */
module ProxyReplays {
  import opened Wrappers
  import opened Track
  import opened Proxy
  import opened ProxyInvariant
  import opened ProxyLayer1
  import opened ProxyLayer3
  import opened ProxyLoop
  import opened ProxyTheorems

  // ----- A failed round spares the cached `initialize`

  /** All requests in flight are newer than the cached `initialize`. */
  ghost predicate NewerIn(t: TrackerState) {
    t.initialised && t.initialize.Some? ==>
      forall id :: id in t.inFlight ==> t.initialize.value.at < t.inFlight[id].at
  }

  ghost predicate Newer(s: State) {
    s.pc.Round? ==> NewerIn(s.t)
  }

  lemma LossNewer(s: State, order: seq<Id>)
    requires Inv(s) && Enabled(s, LossDone(order))
    ensures Newer(Step(s, LossDone(order)))
  {
    UnplugKeeps(s);
    AnswerLossShape(Unplug(s), AttemptsCarried(s.pending, Unplug(s).t), order);
  }

  lemma TrackNewer(t: TrackerState, line: Line)
    requires NewerIn(t) && (t.initialize.Some? ==> t.initialize.value.at < line.at)
    ensures NewerIn(OnClientLine(t, line).0)
  {
  }

  lemma NothingInFlight(s: State)
    requires Owes(s) && s.pc.Disconnected?
    ensures s.t.inFlight == map[]
  {
    forall id ensures id !in s.t.inFlight { assert OwesId(s, id); }
  }

  lemma ClientNewer(s: State, line: Line)
    requires Owes(s) && CachedOk(s.t, s.arrived) && Newer(s) && Enabled(s, Client(line))
    ensures Newer(Step(s, Client(line)))
  {
    if s.pc.Disconnected? { NothingInFlight(s); }
    if !s.pc.Forward? { TrackNewer(s.t, line); }
  }

  lemma RoundNewer(s: State, e: Event)
    requires Newer(s) && Enabled(s, e) && !e.LossDone? && !e.Client?
    ensures Newer(Step(s, e))
  {
  }

  lemma StepNewer(s: State, e: Event)
    requires Inv(s) && Newer(s) && Enabled(s, e)
    ensures Newer(Step(s, e))
  {
    match e
    case LossDone(order) => LossNewer(s, order);
    case Client(line) => ClientNewer(s, line);
    case _ => RoundNewer(s, e);
  }

  // ----- Exactly when a replay sends an answered request

  /** A loss with `line` in flight and not kept for re-sending. */
  ghost predicate Hits(s: State, e: Event, line: Line) {
    e.LossDone? && Flying(Unplug(s).t, line) && Kept(Unplug(s).t) != RequestId(line)
  }

  ghost predicate HitIn(es: seq<Event>, line: Line) {
    exists n: nat :: n < |es| && Valid(START, es[..n]) && Hits(Exec(START, es[..n]), es[n], line)
  }

  lemma HitIsErrored(s: State, e: Event, line: Line)
    requires Enabled(s, e) && Hits(s, e, line)
    ensures line.at in Step(s, e).errored
  {
    var id := RequestId(line).value;
    assert id in Unplug(s).t.inFlight && id !in Keep(Kept(Unplug(s).t));
  }

  lemma ErroredStays(s: State, e: Event)
    requires Enabled(s, e)
    ensures s.errored <= Step(s, e).errored
  {
  }

  lemma FailedAttemptSpares(s: State, retryable: bool, order: seq<Id>)
    requires s.pc.Round? && NewerIn(s.t)
    ensures FailAttempt(s, retryable, order).t.initialize == s.t.initialize
    ensures s.t.initialize.Some? && s.t.initialize.value.at in FailAttempt(s, retryable, order).errored ==>
              s.t.initialize.value.at in s.errored
  {
  }

  /** The steps of a round may fail it, and no other step but a loss answers anything with an error. */
  lemma RoundSpares(s: State, e: Event)
    requires Newer(s) && Enabled(s, e) && !e.LossDone? && !e.Client?
    ensures Step(s, e).t.initialize == s.t.initialize
    ensures s.t.initialize.Some? && s.t.initialize.value.at in Step(s, e).errored ==> s.t.initialize.value.at in s.errored
  {
    match e
    case ConnectOk(order) =>
      var s1 := NoConnection(s);
      FailedAttemptSpares(s1, false, order);
      FailedAttemptSpares(s1.(t := s.t.(replayStarted := true),
                              firstReplay := if s.firstReplay.None? then Some(|s.arrived|) else s.firstReplay,
                              readAt := |s.arrived|), false, order);
    case AttemptFail(retryable, order) => FailedAttemptSpares(s, retryable, order);
    case RoundRead(order) => FailedAttemptSpares(Popped(s), true, order);
    case _ =>
  }

  /** Of the requests that a step answers with errors, the cached `initialize` is one just if a loss hits it. */
  lemma ErroredStep(s: State, e: Event, line: Line)
    requires Inv(s) && Newer(s) && Enabled(s, e) && Step(s, e).t.initialize == Some(line)
    requires line.at in Step(s, e).errored
    ensures Hits(s, e, line) || (line.at in s.errored && s.t.initialize == Some(line))
  {
    match e
    case LossDone(order) => LossErrored(s, order, line);
    case Client(l) => ClientErrored(s, l, line);
    case _ => RoundSpares(s, e);
  }

  lemma LossErrored(s: State, order: seq<Id>, line: Line)
    requires Inv(s) && Enabled(s, LossDone(order)) && OnLoss(s, order).t.initialize == Some(line)
    requires line.at in OnLoss(s, order).errored
    ensures Hits(s, LossDone(order), line) || (line.at in s.errored && s.t.initialize == Some(line))
  {
    AnswerLossShape(Unplug(s), AttemptsCarried(s.pending, Unplug(s).t), order);
    assert s.t.initialize == Some(line);
    LossErrorsInitialize(s, order);
  }

  lemma ClientErrored(s: State, l: Line, line: Line)
    requires Histories(s) && Enabled(s, Client(l)) && Step(s, Client(l)).t.initialize == Some(line)
    requires line.at in Step(s, Client(l)).errored
    ensures line.at in s.errored && s.t.initialize == Some(line)
  {
  }

  lemma {:induction false} RunUnfolds(s: State, es: seq<Event>)
    requires Valid(s, es) && es != []
    ensures var n := |es| - 1;
            Valid(s, es[..n]) && Enabled(Exec(s, es[..n]), es[n]) && Exec(s, es) == Step(Exec(s, es[..n]), es[n])
    decreases |es|
  {
    var n := |es| - 1;
    if n > 0 {
      RunUnfolds(Step(s, es[0]), es[1..]);
      assert es[..n][1..] == es[1..][..n - 1];
    }
  }

  lemma HitGrows(es: seq<Event>, line: Line)
    requires es != [] && HitIn(es[..|es| - 1], line)
    ensures HitIn(es, line)
  {
    var fewer := es[..|es| - 1];
    var n: nat :| n < |fewer| && Valid(START, fewer[..n]) && Hits(Exec(START, fewer[..n]), fewer[n], line);
    assert fewer[..n] == es[..n];
  }

  lemma HitIsEarlierOrLast(es: seq<Event>, line: Line)
    requires es != [] && HitIn(es, line)
    ensures var n := |es| - 1;
            HitIn(es[..n], line) || (Valid(START, es[..n]) && Hits(Exec(START, es[..n]), es[n], line))
  {
    var n: nat :| n < |es| && Valid(START, es[..n]) && Hits(Exec(START, es[..n]), es[n], line);
    if n < |es| - 1 { assert es[..|es| - 1][..n] == es[..n]; }
  }

  lemma {:induction false} HitStaysErrored(es: seq<Event>, line: Line)
    requires Valid(START, es) && HitIn(es, line)
    ensures line.at in Exec(START, es).errored
  {
    var n := |es| - 1;
    RunUnfolds(START, es);
    HitIsEarlierOrLast(es, line);
    ErroredStays(Exec(START, es[..n]), es[n]);
    if HitIn(es[..n], line) { HitStaysErrored(es[..n], line); } else { HitIsErrored(Exec(START, es[..n]), es[n], line); }
  }

  lemma {:induction false} ErroredWasHit(es: seq<Event>)
    requires Valid(START, es)
    ensures Newer(Exec(START, es))
    ensures var s := Exec(START, es);
            s.t.initialize.Some? && s.t.initialize.value.at in s.errored ==> HitIn(es, s.t.initialize.value)
  {
    if es != [] {
      var n := |es| - 1;
      RunUnfolds(START, es);
      RunHasInv(es[..n]);
      ErroredWasHit(es[..n]);
      var u, s := Exec(START, es[..n]), Exec(START, es);
      StepNewer(u, es[n]);
      if s.t.initialize.Some? && s.t.initialize.value.at in s.errored {
        var line := s.t.initialize.value;
        ErroredStep(u, es[n], line);
        if !Hits(u, es[n], line) { HitGrows(es, line); }
      }
    }
  }

  /**
   Of every run: what a connection is first sent again has been answered with the proxy's own error
   if and only if, at some earlier loss, it was in flight and was not the kept request. (Of the lines
   that come after it, none has: see `LinesGoOutInOrder`.)
   */
  lemma ResentWasAnsweredIff(es: seq<Event>)
    requires Valid(START, es)
    requires var s := Exec(START, es); (Plugged(s) || s.pc.Round?) && s.prefix != []
    ensures var s := Exec(START, es); s.prefix[0].at in s.errored <==> HitIn(es, s.prefix[0])
  {
    var s := Exec(START, es);
    ResentPrefix(es);
    if HitIn(es, s.prefix[0]) { HitStaysErrored(es, s.prefix[0]); }
    if s.via.ReplayDrop? { ErroredWasHit(es); }
  }

  // ----- Runs in which a notification is sent twice, or not at all

  function Note(at: nat): Line {
    Line(at, Some(Envelope(None, Some(INITIALIZED), false, false)))
  }

  /** What a run leaves as it is while it goes on with a replay. */
  predicate SameSession(s: State, s': State) {
    s'.arrived == s.arrived && s'.via == s.via && s'.firstReplay == s.firstReplay && s'.readAt == s.readAt && s'.t.initialized == s.t.initialized
  }

  /** The daemon answers the replayed request, and the round comes to its end. */
  lemma ReplayEnds(es: seq<Event>, s: State, note: Line) returns (es': seq<Event>, s': State)
    requires Leads(es, s) && s.pc.Round? && s.pc.stage == WriteInitialize(INIT, Some(note)) && s.wire == []
    ensures Leads(es', s') && s'.pc.Flush? && s'.queue == s.queue && SameSession(s, s')
  {
    es', s' := Then(es, s, RoundWrite);
    es', s' := Then(es', s', DaemonAnswer(Num(0), true));
    es', s' := Then(es', s', RoundRead(Drained(s'.t.inFlight.Keys)));
    es', s' := Then(es', s', RoundWrite);
  }

  lemma {:induction false} QueueFlushes(es: seq<Event>, s: State) returns (es': seq<Event>, s': State)
    requires Leads(es, s) && s.pc.Flush?
    ensures Leads(es', s') && s'.pc.Forward? && SameSession(s, s')
    decreases |s.queue|
  {
    if s.queue == [] {
      es', s' := Then(es, s, FlushDone);
    } else {
      var es1, s1 := Then(es, s, FlushWrite(true));
      es', s' := QueueFlushes(es1, s1);
    }
  }

  /** After an interrupted session: the client's next request, and an attempt that has read the cache. */
  lemma ReplayBegins(es: seq<Event>, s: State) returns (es': seq<Event>, s': State)
    requires Leads(es, s) && s.pc == Disconnected && s.t.initialised && s.t.initialize == Some(INIT) && s.t.inFlight == map[]
    ensures Leads(es', s') && s'.pc == Round(ReplayDrop, 1, WriteInitialize(INIT, s.t.initialized)) && s'.wire == []
    ensures s'.arrived == s.arrived + [Ask(|s.arrived|, "tools/list")] && s'.via == ReplayDrop
    ensures s'.firstReplay == Some(|s'.arrived|) && s'.readAt == |s'.arrived|
    ensures s'.t.initialised && s'.t.initialize == Some(INIT) && s'.t.replayStarted && s'.t.link == Reconnecting
    ensures s'.t.initialized == s.t.initialized
  {
    es', s' := Then(es, s, Client(Ask(|s.arrived|, "tools/list")));
    es', s' := Then(es', s', ConnectOk(Drained(s'.t.inFlight.Keys)));
  }

  lemma NoteDuringReplay() returns (es: seq<Event>, s: State)
    ensures Leads(es, s) && s.pc.Round? && s.pc.after == ReplayDrop && s.pc.attempts == 1
    ensures s.t.initialised && s.t.initialize == Some(INIT) && s.t.initialized == Some(Note(3))
    ensures |s.arrived| == 4 && s.arrived[3] == Note(3) && s.via == ReplayDrop && s.firstReplay == Some(3)
  {
    es, s := InitializeErrored();
    es, s := ReplayBegins(es, s);
    es, s := Then(es, s, Client(Note(3)));
  }

  /** The attempt fails, and the next one finds in the cache what is in the queue as well. */
  lemma SecondAttempt() returns (es: seq<Event>, s: State)
    ensures Leads(es, s) && s.pc.Round? && s.pc.stage == WriteInitialize(INIT, Some(Note(3))) && s.wire == []
    ensures |s.arrived| == 4 && s.arrived[3] == Note(3) && s.via == ReplayDrop && s.firstReplay == Some(3) && s.readAt == 4
  {
    es, s := NoteDuringReplay();
    es, s := Then(es, s, AttemptFail(true, Drained(s.t.inFlight.Keys)));
    es, s := Then(es, s, ConnectOk(Drained(s.t.inFlight.Keys)));
  }

  /** Sent while an attempt is replaying that then fails, it is in the queue and in the next attempt's cache. */
  lemma InitializedIsSentTwice() returns (es: seq<Event>)
    ensures Valid(START, es)
    ensures var s := Exec(START, es);
            && s.pc.Forward? && s.via.ReplayDrop? && |s.arrived| > 3 && IsInitialized(s.arrived[3]) && s.prefix != []
            && CountAt(s.prefix[1..], 3) + CountAt(s.sent, 3) == 2
  {
    var s: State;
    es, s := SecondAttempt();
    es, s := ReplayEnds(es, s, Note(3));
    es, s := QueueFlushes(es, s);
    InitializedIsDelivered(es, 3);
  }

  lemma TwoNotes() returns (es: seq<Event>, s: State)
    ensures Leads(es, s) && s.pc == Disconnected && s.t.initialised && s.t.initialize == Some(INIT) && s.t.inFlight == map[]
    ensures |s.arrived| == 4 && s.arrived[2] == Note(2) && s.arrived[3] == Note(3) && s.t.initialized == Some(Note(3))
  {
    es, s := InitializeErrored();
    es, s := Then(es, s, Client(Note(2)));
    es, s := Then(es, s, Client(Note(3)));
  }

  /** Of two that are sent before a replay, the first one is never delivered. */
  lemma FirstInitializedIsDropped() returns (es: seq<Event>)
    ensures Valid(START, es)
    ensures var s := Exec(START, es);
            && s.pc.Forward? && s.via.ReplayDrop? && |s.arrived| > 2 && IsInitialized(s.arrived[2]) && s.prefix != []
            && CountAt(s.prefix[1..], 2) + CountAt(s.sent, 2) == 0
  {
    var s: State;
    es, s := TwoNotes();
    es, s := ReplayBegins(es, s);
    assert s.arrived[2] == Note(2) && s.arrived[3] == Note(3);
    es, s := ReplayEnds(es, s, Note(3));
    es, s := QueueFlushes(es, s);
    assert IsInitialized(s.arrived[..s.readAt][3]);
    InitializedIsNotLost(es, 2);
  }
}
