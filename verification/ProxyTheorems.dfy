/** What the reconnect machine promises its client, in every run. */
module ProxyTheorems {
  import opened Wrappers
  import opened Track
  import opened Proxy
  import opened ProxyInvariant
  import opened ProxySteps
  import opened ProxyLayer1
  import opened ProxyLayer3
  import opened ProxyLoop

  lemma RunHasInv(es: seq<Event>)
    requires Valid(START, es)
    ensures Inv(Exec(START, es))
  {
    StartHasInv();
    RunKeeps(START, es);
  }

  // ----- Conservation

  /**
   In every run, for every id, the requests taken from the client are the answers put on stdout
   plus the request in flight: none is forgotten and none is answered twice.
   */
  lemma AnswersAreConserved(es: seq<Event>, id: Id)
    requires Valid(START, es)
    ensures var s := Exec(START, es);
            && Count(s.arrived, id, false) == CountAnswers(s.out, id) + One(id in s.t.inFlight)
            && (s.pc.Disconnected? ==> s.t.inFlight == map[] && s.queue == [])
  {
    RunHasInv(es);
    var s := Exec(START, es);
    if s.pc.Disconnected? {
      forall other ensures other !in s.t.inFlight { assert OwesId(s, other); }
      assert s.t.inFlight == map[];
    }
  }

  // ----- Re-sends are bounded

  /** No client line is re-sent as the kept request more than three times, over all losses. */
  lemma ResendsAreBounded(es: seq<Event>, at: nat)
    requires Valid(START, es)
    ensures var s := Exec(START, es);
            && s.resent[at] <= MAX_ATTEMPTS
            && (s.pc.Round? ==> 1 <= s.pc.attempts <= MAX_ATTEMPTS)
  {
    RunHasInv(es);
  }

  /** A loss while the re-sent request is pending starts a round with more attempts spent, or exits. */
  lemma CarriedAttemptsGrow(s: State, order: seq<Id>)
    requires Inv(s) && Enabled(s, LossDone(order))
    requires KeptInFlight(Unplug(s).t).Some? && s.pending.Some?
    requires KeptInFlight(Unplug(s).t).value.generation == s.pending.value.generation
    ensures var s', used := OnLoss(s, order), s.pending.value.attemptsUsed;
            if used >= MAX_ATTEMPTS then s'.pc == Exited(1) else s'.pc.Round? && s'.pc.attempts == used + 1
  {
  }

  // ----- The order of delivery

  predicate Ascending(lines: seq<Line>) {
    forall i, j :: 0 <= i < j < |lines| ==> lines[i].at < lines[j].at
  }

  lemma {:induction false} UnskippedAscends(lines: seq<Line>, skipped: set<nat>)
    requires Ascending(lines)
    ensures Ascending(Unskipped(lines, skipped))
    ensures forall l :: l in Unskipped(lines, skipped) ==> l in lines
  {
    if lines != [] {
      var fewer := lines[..|lines| - 1];
      UnskippedAscends(fewer, skipped);
      forall l | l in Unskipped(fewer, skipped) ensures l.at < lines[|lines| - 1].at {
        var i :| 0 <= i < |fewer| && fewer[i] == l;
        assert lines[i] == l;
      }
    }
  }

  ghost predicate Plugged(s: State) {
    s.pc.Flush? || s.pc.Forward? || s.pc.Writing? || s.pc.Drain? || s.pc.Losing?
  }

  /**
   What a connected daemon has been sent is what was re-sent and then client lines in the order
   the client sent them, all of them newer than every request that the proxy ever answered with
   its own error; what is queued comes next, and nothing in between is missing.
   */
  lemma LinesGoOutInOrder(es: seq<Event>)
    requires Valid(START, es) && Plugged(Exec(START, es))
    ensures var s := Exec(START, es);
            && s.base <= |s.arrived|
            && Ascending(s.sent)
            && (forall l :: l in s.sent ==> l.at < |s.arrived| && s.arrived[l.at] == l)
            && (forall l, a :: l in s.sent && a in s.errored ==> a < l.at)
            && (!s.pc.Losing? ==>
                  s.sent + s.queue + WritingNow(s.pc) == Unskipped(s.arrived[s.base..], s.skipped))
  {
    RunHasInv(es);
    var s := Exec(START, es);
    var lines := s.arrived[s.base..];
    assert Ascending(lines);
    UnskippedAscends(lines, s.skipped);
    var all := Unskipped(lines, s.skipped);
    assert s.sent <= all;
    forall l | l in s.sent ensures l.at < |s.arrived| && s.arrived[l.at] == l && s.base <= l.at {
      assert l in all;
      var i :| 0 <= i < |lines| && lines[i] == l;
      assert l == s.arrived[s.base + i];
    }
  }

  /**
   The re-sent part, on a connection that is up and while an attempt is sending it, is nothing, one
   request that no error has answered, or the handshake: of that an attempt has sent a prefix.
   */
  lemma ResentPrefix(es: seq<Event>)
    requires Valid(START, es) && (Plugged(Exec(START, es)) || Exec(START, es).pc.Round?)
    ensures var s := Exec(START, es);
            match s.via
            case Nothing => s.prefix == []
            case ReplayDrop =>
              && s.t.initialize.Some?
              && (s.prefix == [] ||
                  (s.readAt <= |s.arrived| &&
                   s.prefix <= [s.t.initialize.value] + Opt(LastInitialized(s.arrived[..s.readAt]))))
              && (Plugged(s) ==>
                    && s.readAt <= |s.arrived|
                    && s.prefix == [s.t.initialize.value] + Opt(LastInitialized(s.arrived[..s.readAt])))
            case _ =>
              && |s.prefix| <= 1 && (Plugged(s) ==> |s.prefix| == 1)
              && (s.prefix != [] ==> s.prefix[0].at !in s.errored && s.prefix[0].at < s.base)
  {
    RunHasInv(es);
    var s := Exec(START, es);
    if s.pc.Round? { RoundPrefix(s); }
  }

  lemma RoundPrefix(s: State)
    requires Inv(s) && s.pc.Round?
    ensures s.via.ReplayDrop? ==>
              s.t.initialize.Some? && s.prefix <= [s.t.initialize.value] && (s.prefix != [] ==> s.readAt <= |s.arrived|)
    ensures Resends(s.via) ==> |s.prefix| <= 1 && (s.prefix != [] ==> s.prefix[0].at !in s.errored && s.prefix[0].at < s.base)
    ensures s.via.Nothing? ==> s.prefix == []
  {
    if Resends(s.via) {
      var kept := s.t.keptFirst.value;
      assert Entry(s.t.inFlight[kept.id], kept.id, s.arrived, s.errored);
    }
  }

  // ----- The replayed handshake

  function CountAt(lines: seq<Line>, at: nat): nat {
    if lines == [] then 0 else CountAt(lines[..|lines| - 1], at) + One(lines[|lines| - 1].at == at)
  }

  lemma {:induction false} CountUnskipped(arrived: seq<Line>, base: nat, skipped: set<nat>, at: nat)
    requires base <= |arrived| && forall i :: 0 <= i < |arrived| ==> arrived[i].at == i
    ensures CountAt(Unskipped(arrived[base..], skipped), at) == One(base <= at < |arrived| && at !in skipped)
  {
    var lines := arrived[base..];
    if lines != [] {
      var fewer := arrived[..|arrived| - 1];
      assert lines[..|lines| - 1] == fewer[base..];
      CountUnskipped(fewer, base, skipped, at);
      var rest, l := Unskipped(fewer[base..], skipped), lines[|lines| - 1];
      if l.at !in skipped {
        assert (rest + [l])[..|rest|] == rest;
      } else {
        assert rest + [] == rest;
      }
    }
  }

  predicate NoneAfter(lines: seq<Line>, at: nat) {
    forall i :: at < i < |lines| ==> !IsInitialized(lines[i])
  }

  lemma {:induction false} LastInitializedIs(lines: seq<Line>, at: nat)
    requires at < |lines| && IsInitialized(lines[at])
    requires forall i :: 0 <= i < |lines| ==> lines[i].at == i
    ensures LastInitialized(lines).Some?
    ensures LastInitialized(lines).value.at == at <==> NoneAfter(lines, at)
  {
    var n := |lines| - 1;
    if !IsInitialized(lines[n]) {
      LastInitializedIs(lines[..n], at);
    }
  }

  /**
   In a session that replays its handshake, once the queue has been flushed, the notification at
   place `a` has been sent once by the replay exactly if it was the latest one when the
   successful attempt read the cache, and once by the queue or later exactly if it came after
   the round's first replay had started.
   */
  lemma InitializedIsDelivered(es: seq<Event>, a: nat)
    requires Valid(START, es)
    requires var s := Exec(START, es);
             s.pc.Forward? && s.via.ReplayDrop? && a < |s.arrived| && IsInitialized(s.arrived[a])
    ensures var s := Exec(START, es);
            && s.prefix != [] && s.firstReplay.Some? && s.firstReplay.value <= s.readAt <= |s.arrived|
            && CountAt(s.prefix[1..], a) == One(a < s.readAt && NoneAfter(s.arrived[..s.readAt], a))
            && CountAt(s.sent, a) == One(s.firstReplay.value <= a)
  {
    RunHasInv(es);
    DeliveredByReplay(Exec(START, es), a);
    DeliveredByQueue(Exec(START, es), a);
  }

  lemma DeliveredByQueue(s: State, a: nat)
    requires Inv(s) && s.pc.Forward? && s.via.ReplayDrop? && a < |s.arrived| && IsInitialized(s.arrived[a])
    ensures s.firstReplay.Some? && CountAt(s.sent, a) == One(s.firstReplay.value <= a)
  {
    CountUnskipped(s.arrived, s.base, s.skipped, a);
    assert s.sent + s.queue + WritingNow(s.pc) == s.sent;
  }

  lemma DeliveredByReplay(s: State, a: nat)
    requires Inv(s) && s.pc.Forward? && s.via.ReplayDrop? && a < |s.arrived| && IsInitialized(s.arrived[a])
    ensures s.prefix != [] && s.firstReplay.Some? && s.firstReplay.value <= s.readAt <= |s.arrived|
    ensures CountAt(s.prefix[1..], a) == One(a < s.readAt && NoneAfter(s.arrived[..s.readAt], a))
  {
    var seen := s.arrived[..s.readAt];
    var cached := LastInitialized(seen);
    assert s.prefix[1..] == Opt(cached);
    CountOpt(cached, a);
    if a < s.readAt {
      LastInitializedIs(seen, a);
    } else if cached.Some? {
      LastInitializedPlace(seen);
    }
  }

  lemma CountOpt(line: Option<Line>, at: nat)
    ensures CountAt(Opt(line), at) == One(line.Some? && line.value.at == at)
  {
    if line.Some? { assert Opt(line)[..0] == []; }
  }

  lemma {:induction false} LastInitializedPlace(lines: seq<Line>)
    requires LastInitialized(lines).Some?
    ensures LastInitialized(lines).value in lines
    ensures (forall i :: 0 <= i < |lines| ==> lines[i].at == i) ==> LastInitialized(lines).value.at < |lines|
  {
    if !IsInitialized(lines[|lines| - 1]) {
      LastInitializedPlace(lines[..|lines| - 1]);
    }
  }

  /**
   Hence a notification from before the first replay is delivered exactly once, unless a later
   one replaced it in the cache first; one from after it is delivered at least once.
   */
  lemma InitializedIsNotLost(es: seq<Event>, a: nat)
    requires Valid(START, es)
    requires var s := Exec(START, es);
             s.pc.Forward? && s.via.ReplayDrop? && a < |s.arrived| && IsInitialized(s.arrived[a])
    ensures var s := Exec(START, es);
            s.firstReplay.Some? && s.prefix != [] && s.readAt <= |s.arrived|
    ensures var s := Exec(START, es);
            var times := CountAt(s.prefix[1..], a) + CountAt(s.sent, a);
            if a < s.firstReplay.value then times == One(NoneAfter(s.arrived[..s.readAt], a)) else 1 <= times <= 2
  {
    InitializedIsDelivered(es, a);
  }

  // ----- Where the replayed handshake may hold an answered request

  /** `line` is a request in flight, and not an older or later one with the same id. */
  predicate Flying(t: TrackerState, line: Line) {
    RequestId(line).Some? && RequestId(line).value in t.inFlight && t.inFlight[RequestId(line).value].at == line.at
  }

  /**
   A loss answers the cached `initialize` with an error exactly if it is in flight and is not the
   request kept for re-sending.
   */
  lemma LossErrorsInitialize(s: State, order: seq<Id>)
    requires Inv(s) && Enabled(s, LossDone(order)) && s.t.initialize.Some?
    ensures var l, t := s.t.initialize.value, Unplug(s).t;
            && OnLoss(s, order).t.initialize == Some(l)
            && (l.at in OnLoss(s, order).errored <==>
                l.at in s.errored || (Flying(t, l) && Kept(t) != RequestId(l)))
  {
    var s1 := Unplug(s);
    UnplugKeeps(s);
    FailErrors(s1, s.t.initialize.value, Kept(s1.t), order);
    AnswerLossShape(s1, AttemptsCarried(s.pending, s1.t), order);
  }

  lemma FailErrors(s: State, line: Line, keep: Option<Id>, order: seq<Id>)
    requires Entries(s.t, s.arrived, s.errored) && IsRequest(line)
    requires line.at < |s.arrived| && s.arrived[line.at] == line
    ensures line.at in FailInFlight(s, keep, order).errored <==>
            line.at in s.errored || (Flying(s.t, line) && keep != RequestId(line))
  {
    if line.at in FailInFlight(s, keep, order).errored && line.at !in s.errored {
      var id :| id in s.t.inFlight && id !in Keep(keep) && s.t.inFlight[id].at == line.at;
      assert Entry(s.t.inFlight[id], id, s.arrived, s.errored);
    }
  }

  ghost predicate Leads(es: seq<Event>, s: State) {
    Valid(START, es) && Exec(START, es) == s
  }

  lemma Then(es: seq<Event>, s: State, e: Event) returns (es': seq<Event>, s': State)
    requires Leads(es, s) && Enabled(s, e)
    ensures Leads(es', s') && s' == Step(s, e)
  {
    ExecPush(START, es, e);
    es', s' := es + [e], Step(s, e);
  }

  function Ask(at: nat, verb: string): Line {
    Line(at, Some(Envelope(Some(Num(at)), Some(verb), false, false)))
  }

  const INIT := Ask(0, INITIALIZE)
  const LIST := Ask(1, "tools/list")

  const ONE := map[Num(0) := InFlight(Num(0), INITIALIZE, 0)]
  const KEPT := TrackerState(ONE, false, Some(INIT), None, Some(KeptRequest(Num(0), INIT, true, 1)), 1, Link.Up, false)

  lemma InitializeIsKept()
    ensures OnClientLine(EMPTY_TRACKER, INIT).0 == KEPT
  {
    assert |INITIALIZE| == 10 && |"ping"| == 4 && |"server/discover"| == 15;
  }

  lemma InitializeQueued() returns (es: seq<Event>, s: State)
    ensures Leads(es, s) && s.t == KEPT && s == START.(t := KEPT, queue := [INIT], arrived := [INIT])
  {
    InitializeIsKept();
    es, s := Then([], START, Client(INIT));
  }

  /** Two requests are queued while the daemon starts. */
  lemma TwoQueued() returns (es: seq<Event>, s: State)
    ensures Leads(es, s) && s.pc == Flush && s.queue == [INIT, LIST] && s.wire == [] && s.held.None? && |s.arrived| == 2
    ensures s.owed == {} && s.t == KEPT.(inFlight := ONE[Num(1) := InFlight(Num(1), "tools/list", 1)])
  {
    es, s := InitializeQueued();
    es, s := Then(es, s, Client(LIST));
    assert s.t == KEPT.(inFlight := ONE[Num(1) := InFlight(Num(1), "tools/list", 1)]);
    assert s.t.inFlight.Keys == {Num(0), Num(1)};
    es, s := Then(es, s, ConnectOk([Num(0), Num(1)]));
  }

  lemma TwoSent() returns (es: seq<Event>, s: State)
    ensures Leads(es, s) && s.pc == Forward && s.queue == [] && s.wire == [] && s.held.None? && |s.arrived| == 2
    ensures s.owed == {Num(0), Num(1)} && s.t == KEPT.(inFlight := ONE[Num(1) := InFlight(Num(1), "tools/list", 1)])
  {
    es, s := TwoQueued();
    es, s := Then(es, s, FlushWrite(true));
    es, s := Then(es, s, FlushWrite(true));
    es, s := Then(es, s, FlushDone);
  }

  /** The daemon answers the second one first, which makes the session initialised. */
  lemma SecondAnsweredFirst() returns (es: seq<Event>, s: State)
    ensures Leads(es, s) && s.pc == Forward && s.queue == [] && s.held.None? && |s.arrived| == 2
    ensures s.t.initialised && s.t.initialize == Some(INIT) && s.t.keptFirst.None?
    ensures s.t.inFlight == map[Num(0) := InFlight(Num(0), INITIALIZE, 0)]
  {
    es, s := TwoSent();
    assert "tools/list" != "ping" && "tools/list" != "server/discover" by {
      assert |"tools/list"| == 10 && |"ping"| == 4 && |"server/discover"| == 15;
    }
    es, s := Then(es, s, DaemonAnswer(Num(1), true));
    es, s := Then(es, s, PumpRead);
    es, s := Then(es, s, PumpDeliver);
  }

  /** The connection breaks, and the `initialize` is answered with the restart error. */
  lemma InitializeErrored() returns (es: seq<Event>, s: State)
    ensures Leads(es, s) && s.pc == Disconnected && |s.arrived| == 2 && 0 in s.errored && s.held.None? && s.queue == []
    ensures s.t.initialised && s.t.initialize == Some(INIT) && s.t.inFlight == map[]
    ensures s.owed == {} && s.wire == []
  {
    es, s := SecondAnsweredFirst();
    es, s := Then(es, s, Lost);
    assert s.t.inFlight.Keys == {Num(0)};
    es, s := Then(es, s, LossDone([Num(0)]));
    assert s.t.inFlight == map[];
  }

  lemma RoundAfterError() returns (es: seq<Event>, s: State)
    ensures Leads(es, s) && s.pc.Round? && s.pc.stage == WriteInitialize(INIT, s.t.initialized) && 0 in s.errored
    ensures s.prefix == []
  {
    es, s := InitializeErrored();
    es, s := Then(es, s, Client(Ask(2, "tools/list")));
    assert s.t.inFlight.Keys == {Num(2)};
    es, s := Then(es, s, ConnectOk([Num(2)]));
  }

  /** So the replay can send a request that the client has been told to retry. */
  lemma ErroredInitializeIsReplayed()
    ensures exists es ::
              Valid(START, es) && var s := Exec(START, es); s.pc.Round? && s.prefix != [] && s.prefix[0].at in s.errored
  {
    var es, s := RoundAfterError();
    es, s := Then(es, s, RoundWrite);
  }
}
