/** The first layer of the invariant, kept by every step: conservation of answers. */
module ProxySteps {
  import opened Wrappers
  import opened Track
  import opened Proxy
  import opened ProxyInvariant

  // ----- Counting

  lemma {:induction false} CountConcat(a: seq<Line>, b: seq<Line>, id: Id, responses: bool)
    ensures Count(a + b, id, responses) == Count(a, id, responses) + Count(b, id, responses)
  {
    if b == [] {
      assert a + b == a;
    } else {
      assert (a + b)[..|a + b| - 1] == a + b[..|b| - 1];
      CountConcat(a, b[..|b| - 1], id, responses);
    }
  }

  lemma CountPush(lines: seq<Line>, line: Line)
    ensures forall id, responses ::
              Count(lines + [line], id, responses) == Count(lines, id, responses) + One(IsFor(line, id, responses))
  {
    assert (lines + [line])[..|lines|] == lines;
  }

  lemma CountPop(lines: seq<Line>)
    requires lines != []
    ensures forall id, responses ::
              Count(lines, id, responses) == One(IsFor(lines[0], id, responses)) + Count(lines[1..], id, responses)
  {
    forall id, responses
      ensures Count(lines, id, responses) == One(IsFor(lines[0], id, responses)) + Count(lines[1..], id, responses)
    {
      assert lines == [lines[0]] + lines[1..];
      CountConcat([lines[0]], lines[1..], id, responses);
      assert [lines[0]][..0] == [];
    }
  }

  lemma {:induction false} CountAnswersConcat(a: seq<Out>, b: seq<Out>, id: Id)
    ensures CountAnswers(a + b, id) == CountAnswers(a, id) + CountAnswers(b, id)
  {
    if b == [] {
      assert a + b == a;
    } else {
      assert (a + b)[..|a + b| - 1] == a + b[..|b| - 1];
      CountAnswersConcat(a, b[..|b| - 1], id);
    }
  }

  lemma {:induction false} CountAnswersOwn(ids: seq<Id>, id: Id)
    ensures CountAnswers(Answer(ids), id) == multiset(ids)[id]
  {
    if ids != [] {
      CountAnswersOwn(ids[1..], id);
      CountAnswersConcat([OwnError(ids[0])], Answer(ids[1..]), id);
      assert [OwnError(ids[0])][..0] == [];
      assert ids == [ids[0]] + ids[1..];
    }
  }

  // ----- A daemon line reaches stdout

  predicate InFlightIfAnswer(t: TrackerState, line: Line) {
    IsResponse(line) ==> line.env.value.id.value in t.inFlight
  }

  /** What the tracker does with an answer that is in flight. */
  lemma DaemonLineTracked(t: TrackerState, line: Line)
    requires InFlightIfAnswer(t, line)
    ensures var t' := OnDaemonLine(t, line);
            && (forall id :: id in t'.inFlight <==> id in t.inFlight && !IsFor(line, id, true))
            && (forall id :: id in t'.inFlight ==> t'.inFlight[id] == t.inFlight[id])
            && t' == t.(inFlight := t'.inFlight, keptFirst := t'.keptFirst, initialised := t'.initialised)
            && (t'.keptFirst.Some? ==> t'.keptFirst == t.keptFirst && t'.initialised == t.initialised)
            && (t.initialised ==> t'.initialised)
  {
  }

  lemma DeliverConserves(s: State, line: Line)
    requires Conserved(s) && InFlightIfAnswer(s.t, line)
    ensures Conserved(Deliver(s, line))
  {
    assert (s.out + [DaemonLine(line)])[..|s.out|] == s.out;
    DaemonLineTracked(s.t, line);
    forall id ensures Count(s.arrived, id, false) == CountAnswers(Deliver(s, line).out, id) + One(id in Deliver(s, line).t.inFlight) {
      assert Count(s.arrived, id, false) == CountAnswers(s.out, id) + One(id in s.t.inFlight);
    }
  }

  /** An answer with just one of result and error leaves the kept request kept or answered. */
  lemma DeliverTables(t: TrackerState, line: Line, arrived: seq<Line>, errored: set<nat>)
    requires InFlightIfAnswer(t, line) && OneOutcome(line)
    requires Entries(t, arrived, errored) && KeptOk(t, arrived) && CachedOk(t, arrived)
    ensures var t' := OnDaemonLine(t, line);
            Entries(t', arrived, errored) && KeptOk(t', arrived) && CachedOk(t', arrived)
  {
    DaemonLineTracked(t, line);
  }

  // ----- The proxy answers with its own error

  lemma FailConserves(s: State, keep: Option<Id>, order: seq<Id>)
    requires Conserved(s)
    requires keep.Some? ==> keep.value in s.t.inFlight
    requires Lists(order, s.t.inFlight.Keys - Keep(keep))
    ensures Conserved(FailInFlight(s, keep, order))
  {
    var s' := FailInFlight(s, keep, order);
    forall id ensures Count(s.arrived, id, false) == CountAnswers(s'.out, id) + One(id in s'.t.inFlight) {
      assert Count(s.arrived, id, false) == CountAnswers(s.out, id) + One(id in s.t.inFlight);
      CountAnswersConcat(s.out, Answer(order), id);
      CountAnswersOwn(order, id);
      assert multiset(order)[id] == One(id in s.t.inFlight.Keys - Keep(keep));
    }
  }

  lemma FailTables(s: State, keep: Option<Id>, order: seq<Id>)
    requires Histories(s) && Entries(s.t, s.arrived, s.errored) && KeptOk(s.t, s.arrived) && CachedOk(s.t, s.arrived)
    requires s.t.keptFirst.Some? ==> keep == Some(s.t.keptFirst.value.id)
    ensures var s' := FailInFlight(s, keep, order).(base := |s.arrived|);
            Histories(s') && Entries(s'.t, s'.arrived, s'.errored) && KeptOk(s'.t, s'.arrived) && CachedOk(s'.t, s'.arrived)
  {
    var s' := FailInFlight(s, keep, order).(base := |s.arrived|);
    forall a | a in s'.errored ensures a < s'.base {
      if a !in s.errored {
        var id :| id in s.t.inFlight && s.t.inFlight[id].at == a;
        assert Entry(s.t.inFlight[id], id, s.arrived, s.errored);
      }
    }
    forall id | id in s'.t.inFlight ensures Entry(s'.t.inFlight[id], id, s'.arrived, s'.errored) {
      assert Entry(s.t.inFlight[id], id, s.arrived, s.errored);
      forall other | other in s.t.inFlight && other !in Keep(keep)
        ensures s.t.inFlight[other].at != s.t.inFlight[id].at
      {
        assert Entry(s.t.inFlight[other], other, s.arrived, s.errored);
      }
    }
  }

  // ----- The tracker takes a client line

  function Tracked(s: State, line: Line): State {
    s.(t := OnClientLine(s.t, line).0, arrived := s.arrived + [line])
  }

  ghost predicate Fresh(s: State, line: Line) {
    line.at == |s.arrived| && (IsRequest(line) ==> line.env.value.id.value !in s.t.inFlight)
  }

  lemma RequestTracked(t: TrackerState, line: Line)
    requires IsRequest(line)
    ensures var id, verb := line.env.value.id.value, line.env.value.verb.value;
            var t' := OnClientLine(t, line).0;
            && OnClientLine(t, line).1 == Request
            && t' == t.(inFlight := t.inFlight[id := InFlight(id, verb, line.at)],
                        initialize := t'.initialize, keptFirst := t'.keptFirst, keptGeneration := t'.keptGeneration)
            && t'.initialize == (if !t.initialised && verb == INITIALIZE then Some(line) else t.initialize)
            && ((t'.keptFirst == t.keptFirst && t'.keptGeneration == t.keptGeneration)
                || (t.keptFirst.None? && !t.initialised && CountsForLifecycle(verb) &&
                    t'.keptGeneration == t.keptGeneration + 1 &&
                    t'.keptFirst == Some(KeptRequest(id, line, verb == INITIALIZE, t'.keptGeneration))))
  {
  }

  lemma OtherTracked(t: TrackerState, line: Line)
    requires !IsRequest(line)
    ensures var t' := OnClientLine(t, line).0;
            OnClientLine(t, line).1 != Request && t' == t.(initialized := t'.initialized)
    ensures OnClientLine(t, line).0.initialized == if IsInitialized(line) then Some(line) else t.initialized
    ensures OnClientLine(t, line).1 == CacheOnly <==>
            IsInitialized(line) && t.link == Reconnecting && ReplaysHandshake(t) && !t.replayStarted
  {
  }

  lemma TrackTables(s: State, line: Line)
    requires Histories(s) && Entries(s.t, s.arrived, s.errored) && KeptOk(s.t, s.arrived) && CachedOk(s.t, s.arrived)
    requires Fresh(s, line)
    ensures var s' := Tracked(s, line);
            Histories(s') && Entries(s'.t, s'.arrived, s'.errored) && KeptOk(s'.t, s'.arrived) && CachedOk(s'.t, s'.arrived)
  {
    var s' := Tracked(s, line);
    assert (s.arrived + [line])[..|s.arrived|] == s.arrived;
    if IsRequest(line) { RequestTracked(s.t, line); } else { OtherTracked(s.t, line); }
    forall id | id in s'.t.inFlight ensures Entry(s'.t.inFlight[id], id, s'.arrived, s'.errored) {
      if id in s.t.inFlight { assert Entry(s.t.inFlight[id], id, s.arrived, s.errored); }
    }
  }

  lemma TrackConserves(s: State, line: Line)
    requires Conserved(s) && Fresh(s, line)
    ensures Conserved(Tracked(s, line))
    ensures forall id :: One(id in Tracked(s, line).t.inFlight) == One(id in s.t.inFlight) + One(IsFor(line, id, false))
  {
    CountPush(s.arrived, line);
    if IsRequest(line) { RequestTracked(s.t, line); } else { OtherTracked(s.t, line); }
    var s' := Tracked(s, line);
    forall id ensures Count(s'.arrived, id, false) == CountAnswers(s'.out, id) + One(id in s'.t.inFlight) {
      assert Count(s.arrived, id, false) == CountAnswers(s.out, id) + One(id in s.t.inFlight);
    }
  }
}
