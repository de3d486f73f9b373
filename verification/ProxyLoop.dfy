/**
 The proxy as the object it is: what `on_loss`, `round_failed` and `await_request` do to its
 fields between two awaits, each shown to be a step, or a run of steps, of the machine.
 */
module ProxyLoop {
  import opened Wrappers
  import opened Track
  import opened Proxy

  datatype Next = Idle | Reconnect(after: AfterHello, used: nat) | ExitNow(code: nat)

  function NextOf(pc: Pc): Option<Next> {
    match pc
    case Disconnected => Some(Idle)
    case Exited(code) => Some(ExitNow(code))
    case Round(after, attempts, Connecting) => if attempts == 0 then None else Some(Reconnect(after, attempts - 1))
    case _ => None
  }

  class ProxyObject {
    const tracker: Tracker
    var queue: seq<Line>
    var pending: Option<ResendPending>
    var held: Option<Line>
    var out: seq<Out>

    constructor ()
      ensures fresh(tracker) && Shows(START)
    {
      tracker := new Tracker();
      queue, pending, held, out := [], None, None, [];
    }

    /** The object's fields are the proxy's fields in the machine's state `s`. */
    ghost predicate Shows(s: State)
      reads this, tracker
    {
      tracker.State() == s.t && queue == s.queue && pending == s.pending && held == s.held && out == s.out
    }

    /** Sends the proxy's own error for each of `ids`. */
    method SendErrors(ids: seq<Id>)
      modifies this`out
      ensures out == old(out) + Answer(ids)
    {
      var i := 0;
      assert ids[0..] == ids;
      while i < |ids|
        invariant 0 <= i <= |ids|
        invariant out + Answer(ids[i..]) == old(out) + Answer(ids)
      {
        assert ids[i..] == [ids[i]] + ids[i + 1..];
        assert out + ([OwnError(ids[i])] + Answer(ids[i + 1..])) == (out + [OwnError(ids[i])]) + Answer(ids[i + 1..]);
        out := out + [OwnError(ids[i])];
        i := i + 1;
      }
    }

    /** Answers every request in flight but `keep` with the proxy's own error. */
    method AnswerBut(ghost s: State, keep: Option<Id>) returns (ghost order: seq<Id>)
      requires Shows(s)
      modifies this`out, tracker
      ensures Lists(order, s.t.inFlight.Keys - Keep(keep)) && Shows(FailInFlight(s, keep, order))
    {
      var ids := tracker.TakeInFlight(keep);
      order := ids;
      SendErrors(ids);
    }

    method KeptNow() returns (kept: Option<KeptRequest>)
      ensures kept == KeptInFlight(tracker.State())
    {
      kept := if tracker.keptFirst.Some? && tracker.keptFirst.value.id in tracker.inFlight
              then tracker.keptFirst else None;
    }

    /** `on_loss`, once the pump has stopped: the held line is the last one of the old daemon. */
    method OnLoss(ghost s: State) returns (next: Next, ghost order: seq<Id>)
      requires Shows(s) && s.pc.Losing?
      modifies this, tracker
      ensures Enabled(s, LossDone(order))
      ensures Shows(Step(s, LossDone(order))) && NextOf(Step(s, LossDone(order)).pc) == Some(next)
    {
      var used := TakeLoss(s);
      next, order := AnswerLoss(Unplug(s), used);
    }

    method TakeLoss(ghost s: State) returns (used: nat)
      requires Shows(s)
      modifies this, tracker
      ensures Shows(Unplug(s)) && used == AttemptsCarried(s.pending, Unplug(s).t)
    {
      if held.Some? {
        tracker.DaemonLineSeen(held.value);
        out := out + [DaemonLine(held.value)];
        held := None;
      }
      queue := [];
      tracker.PutLink(Down);
      var kept := KeptNow();
      used := if pending.Some? && kept.Some? && kept.value.generation == pending.value.generation
              then pending.value.attemptsUsed else 0;
      pending := None;
    }

    /** `on_daemon_loss`, and what `on_loss` makes of its answer. */
    method AnswerLoss(ghost s: State, used: nat) returns (next: Next, ghost order: seq<Id>)
      requires Shows(s)
      modifies this, tracker
      ensures Lists(order, s.t.inFlight.Keys - Keep(Kept(s.t)))
      ensures var s' := Proxy.AnswerLoss(s, used, order); Shows(s') && NextOf(s'.pc) == Some(next)
    {
      var kept := KeptNow();
      order := AnswerBut(s, if kept.Some? then Some(kept.value.id) else None);
      if kept.None? {
        next := Idle;
      } else if used >= MAX_ATTEMPTS {
        next := ExitNow(1);
      } else {
        tracker.PutLink(Reconnecting);
        next := Reconnect(if kept.value.initialize then ReplayForward else ResendKept, used);
      }
    }

    /** `round_failed`: before the session is initialised there is nothing to wait for. */
    method OnRoundFailed(ghost s: State) returns (next: Next, ghost order: seq<Id>)
      requires Shows(s) && s.pc.Round?
      modifies this, tracker
      ensures Lists(order, s.t.inFlight.Keys)
      ensures Shows(RoundFailed(s, order)) && NextOf(RoundFailed(s, order).pc) == Some(next)
    {
      if !tracker.initialised {
        order := Drained(s.t.inFlight.Keys);
        return ExitNow(1), order;
      }
      order := AnswerBut(s, None);
      tracker.PutLink(Down);
      queue := [];
      next := Idle;
    }

    /** One line of `await_request`. */
    method TakeLine(line: Line, ghost s: State) returns (next: Option<Next>)
      requires Shows(s) && s.pc.Disconnected?
      modifies this, tracker
      ensures next.Some? <==> IsRequest(line)
      ensures var s' := ReadClient(s, line);
              && Shows(s') && |s'.arrived| == |s.arrived| + 1
              && (next.Some? ==> NextOf(s'.pc) == next)
              && (next.None? ==> s'.pc.Disconnected? && s'.t.inFlight == s.t.inFlight)
    {
      next := None;
      var kind := tracker.ClientLineSeen(line);
      if kind == Request {
        tracker.PutLink(Reconnecting);
        var after := if tracker.initialised && tracker.initialize.Some? then ReplayDrop else Nothing;
        queue := queue + [line];
        next := Some(Reconnect(after, 0));
      }
    }

    /** `await_request`: drops lines up to the first request, which starts the reconnect. */
    method AwaitRequest(lines: seq<Line>, ghost s: State) returns (read: nat, next: Option<Next>, ghost now: State)
      requires Shows(s) && s.pc.Disconnected? && s.t.inFlight == map[]
      requires forall i :: 0 <= i < |lines| ==> lines[i].at == |s.arrived| + i
      modifies this, tracker
      ensures read <= |lines|
      ensures next.None? ==> read == |lines| && forall i :: 0 <= i < |lines| ==> !IsRequest(lines[i])
      ensures next.Some? ==>
                0 < read && IsRequest(lines[read - 1]) && forall i :: 0 <= i < read - 1 ==> !IsRequest(lines[i])
      ensures ReadTo(s, lines[..read], now) && Shows(now)
      ensures if next.Some? then NextOf(now.pc) == next else now.pc.Disconnected?
    {
      read, next, now := 0, None, s;
      while read < |lines| && next.None?
        invariant 0 <= read <= |lines|
        invariant forall i :: 0 <= i < read ==> (IsRequest(lines[i]) <==> next.Some? && i == read - 1)
        invariant next.Some? ==> 0 < read
        invariant ReadTo(s, lines[..read], now) && Shows(now)
        invariant if next.Some? then NextOf(now.pc) == next else
                    now.pc.Disconnected? && now.t.inFlight == map[] && |now.arrived| == |s.arrived| + read
        decreases |lines| - read
      {
        assert lines[..read + 1] == lines[..read] + [lines[read]];
        ReadPush(s, lines[..read], lines[read], now);
        next := TakeLine(lines[read], now);
        now, read := ReadClient(now, lines[read]), read + 1;
      }
    }
  }

  /** Reading `lines`, one after the other, leads from `s` to `s'`. */
  ghost predicate ReadTo(s: State, lines: seq<Line>, s': State) {
    Valid(s, Clients(lines)) && Exec(s, Clients(lines)) == s'
  }

  ghost function Drained(keys: set<Id>): (order: seq<Id>)
    ensures Lists(order, keys)
  {
    if keys == {} then [] else
      var id :| id in keys;
      var rest := Drained(keys - {id});
      assert keys == (keys - {id}) + {id};
      rest + [id]
  }

  function Clients(lines: seq<Line>): seq<Event> {
    if lines == [] then [] else Clients(lines[..|lines| - 1]) + [Client(lines[|lines| - 1])]
  }

  lemma ReadPush(s: State, lines: seq<Line>, line: Line, now: State)
    requires ReadTo(s, lines, now) && Enabled(now, Client(line))
    ensures ReadTo(s, lines + [line], ReadClient(now, line))
  {
    assert (lines + [line])[..|lines|] == lines;
    ExecPush(s, Clients(lines), Client(line));
  }

  lemma {:induction false} ExecPush(s: State, es: seq<Event>, e: Event)
    requires Valid(s, es) && Enabled(Exec(s, es), e)
    ensures Valid(s, es + [e]) && Exec(s, es + [e]) == Step(Exec(s, es), e)
    decreases |es|
  {
    if es == [] {
      assert es + [e] == [e];
      assert [e][1..] == [];
    } else {
      assert (es + [e])[1..] == es[1..] + [e];
      ExecPush(Step(s, es[0]), es[1..], e);
    }
  }

  // ----- A round of attempts

  datatype Attempt = Connects | Fails(retryable: bool)

  /** The machine's events for attempts that fail. */
  function Failures(attempts: seq<Attempt>, order: seq<Id>): seq<Event> {
    if attempts == [] then []
    else
      var last := attempts[|attempts| - 1];
      Failures(attempts[..|attempts| - 1], order) + if last.Fails? then [AttemptFail(last.retryable, order)] else []
  }

  ghost predicate FailTo(s: State, attempts: seq<Attempt>, order: seq<Id>, s': State) {
    Valid(s, Failures(attempts, order)) && Exec(s, Failures(attempts, order)) == s'
  }

  lemma FailPush(s: State, attempts: seq<Attempt>, order: seq<Id>, now: State, retryable: bool)
    requires FailTo(s, attempts, order, now) && Enabled(now, AttemptFail(retryable, order))
    ensures FailTo(s, attempts + [Fails(retryable)], order, FailAttempt(now, retryable, order))
  {
    assert (attempts + [Fails(retryable)])[..|attempts|] == attempts;
    ExecPush(s, Failures(attempts, order), AttemptFail(retryable, order));
  }

  /** What the `k`-th attempt does to the round if it fails. */
  lemma FailNext(s: State, attempts: seq<Attempt>, k: nat, order: seq<Id>, now: State)
    requires k < |attempts| && attempts[k].Fails? && FailTo(s, attempts[..k], order, now)
    requires now.pc.Round? && now.pc.stage.Connecting? && DrainsAll(order, now.t)
    ensures var retryable := attempts[k].retryable;
            var next := FailAttempt(now, retryable, order);
            && FailTo(s, attempts[..k + 1], order, next)
            && (if retryable && now.pc.attempts < MAX_ATTEMPTS
                then next.t == now.t && next.pc == Round(now.pc.after, now.pc.attempts + 1, Connecting)
                else next.t.inFlight == (if now.t.initialised then map[] else now.t.inFlight)
                     && next.pc == if now.t.initialised then Disconnected else Exited(1))
  {
    FailPush(s, attempts[..k], order, now, attempts[k].retryable);
    assert attempts[..k + 1] == attempts[..k] + [attempts[k]];
  }

  /**
   `run_round`: tries until an attempt connects, fails for good, or is the third. `attempts` are the
   outcomes that the world has in store. The attempts that fail are the machine's, from the round's
   start `s` on: to the attempt that connects, or to the end of the failed round.
   */
  method RunRound(attempts: seq<Attempt>, used: nat, ghost s: State, ghost order: seq<Id>)
    returns (connected: bool, spent: nat, ghost now: State)
    requires used < MAX_ATTEMPTS && |attempts| >= MAX_ATTEMPTS
    requires s.pc.Round? && s.pc.attempts == used + 1 && s.pc.stage.Connecting? && DrainsAll(order, s.t)
    ensures used < spent <= MAX_ATTEMPTS
    ensures forall i :: 0 <= i < spent - used - 1 ==> attempts[i] == Fails(true)
    ensures connected <==> attempts[spent - used - 1].Connects?
    ensures !connected ==> attempts[spent - used - 1] == Fails(false) || spent == MAX_ATTEMPTS
    ensures FailTo(s, attempts[..if connected then spent - used - 1 else spent - used], order, now)
    ensures now.t.inFlight == if connected || !s.t.initialised then s.t.inFlight else map[]
    ensures if connected then now.pc == Round(s.pc.after, spent, Connecting)
            else now.pc == if s.t.initialised then Disconnected else Exited(1)
  {
    spent, now := used, s;
    while true
      invariant used <= spent < MAX_ATTEMPTS
      invariant forall i :: 0 <= i < spent - used ==> attempts[i] == Fails(true)
      invariant FailTo(s, attempts[..spent - used], order, now)
      invariant now.pc == Round(s.pc.after, spent + 1, Connecting) && now.t == s.t
      decreases MAX_ATTEMPTS - spent
    {
      var outcome := attempts[spent - used];
      spent := spent + 1;
      if outcome.Connects? { return true, spent, now; }
      FailNext(s, attempts, spent - used - 1, order, now);
      now := FailAttempt(now, outcome.retryable, order);
      if !outcome.retryable || spent >= MAX_ATTEMPTS { return false, spent, now; }
    }
  }
}
