/**
 The restart budget of the vector store's process (crates/store/src/sidecar.rs): at most
 `LIMIT` restarts in any `WINDOW` seconds. The budget forgets what is too old; `history` does not.
 */
module Restarts {
  import opened Wrappers

  const LIMIT: nat := 3
  const WINDOW: nat := 600

  ghost predicate NonDecreasing(times: seq<nat>) {
    forall i, j :: 0 <= i <= j < |times| ==> times[i] <= times[j]
  }

  /** `saturating_duration_since`. */
  function Since(now: nat, t: nat): nat {
    if t <= now then now - t else 0
  }

  /** How many of `times` are at most a window old. */
  function Recent(times: seq<nat>, now: nat): nat {
    if times == [] then 0
    else Recent(times[..|times| - 1], now) + if Since(now, times[|times| - 1]) <= WINDOW then 1 else 0
  }

  /** Any `LIMIT + 1` times in a row span more than a window. */
  ghost predicate Spaced(times: seq<nat>) {
    forall i, j :: 0 <= i < |times| && j == i + LIMIT && j < |times| ==> times[j] - times[i] > WINDOW
  }

  lemma {:induction false} RecentOfOldAndNew(old_: seq<nat>, new_: seq<nat>, now: nat)
    requires forall i :: 0 <= i < |old_| ==> Since(now, old_[i]) > WINDOW
    requires forall i :: 0 <= i < |new_| ==> Since(now, new_[i]) <= WINDOW
    ensures Recent(old_ + new_, now) == |new_|
  {
    if new_ != [] {
      var n := |new_| - 1;
      assert (old_ + new_)[..|old_ + new_| - 1] == old_ + new_[..n];
      RecentOfOldAndNew(old_, new_[..n], now);
    } else if old_ != [] {
      assert old_ + new_ == old_;
      var n := |old_| - 1;
      RecentOfOldAndNew(old_[..n], [], now);
      assert old_[..n] + [] == old_[..n];
    }
  }

  /** The full history allows one more exactly if the last `LIMIT` reach back more than a window. */
  lemma RecentIsFew(times: seq<nat>, now: nat)
    requires NonDecreasing(times) && forall i :: 0 <= i < |times| ==> times[i] <= now
    ensures Recent(times, now) < LIMIT <==> |times| < LIMIT || now - times[|times| - LIMIT] > WINDOW
  {
    var k := FirstRecent(times, now);
    assert times == times[..k] + times[k..];
    RecentOfOldAndNew(times[..k], times[k..], now);
  }

  function FirstRecent(times: seq<nat>, now: nat): (k: nat)
    requires NonDecreasing(times)
    ensures k <= |times|
    ensures forall i :: 0 <= i < k ==> Since(now, times[i]) > WINDOW
    ensures forall i :: k <= i < |times| ==> Since(now, times[i]) <= WINDOW
  {
    if times == [] || Since(now, times[|times| - 1]) > WINDOW then |times|
    else
      assert NonDecreasing(times[..|times| - 1]);
      FirstRecent(times[..|times| - 1], now)
  }

  /** A spend that the full history allows, and no other, keeps the spends apart. */
  lemma SpendKeepsSpacedIff(times: seq<nat>, now: nat)
    requires NonDecreasing(times) && Spaced(times) && forall i :: 0 <= i < |times| ==> times[i] <= now
    ensures Spaced(times + [now]) <==> Recent(times, now) < LIMIT
    ensures NonDecreasing(times + [now])
  {
    RecentIsFew(times, now);
    var times' := times + [now];
    var n := |times|;
    assert times'[n] == now && forall i :: 0 <= i < n ==> times'[i] == times[i];
    if n >= LIMIT {
      assert times'[n - LIMIT] == times[n - LIMIT];
      assert Spaced(times') ==> times'[n] - times'[n - LIMIT] > WINDOW;
    }
    if Recent(times, now) < LIMIT {
      forall i, j | 0 <= i < |times'| && j == i + LIMIT && j < |times'| ensures times'[j] - times'[i] > WINDOW {
        if j < n { assert times[j] - times[i] > WINDOW; }
      }
    }
  }

  /** What has been dropped of `times` is older than a window. */
  ghost predicate Keeps(kept: seq<nat>, times: seq<nat>, now: nat) {
    && NonDecreasing(times) && (forall i :: 0 <= i < |times| ==> times[i] <= now)
    && |kept| <= |times| && kept == times[|times| - |kept|..]
    && (forall i :: 0 <= i < |times| - |kept| ==> Since(now, times[i]) > WINDOW)
  }

  lemma Later(kept: seq<nat>, times: seq<nat>, now: nat, later: nat)
    requires Keeps(kept, times, now) && now <= later
    ensures Keeps(kept, times, later)
  {
  }

  lemma DropFirst(kept: seq<nat>, times: seq<nat>, now: nat)
    requires Keeps(kept, times, now) && kept != [] && Since(now, kept[0]) > WINDOW
    ensures Keeps(kept[1..], times, now)
  {
    var k := |times| - |kept|;
    assert times[k] == kept[0] && times[k..][1..] == times[k + 1..];
  }

  lemma KeptIsRecent(kept: seq<nat>, times: seq<nat>, now: nat)
    requires Keeps(kept, times, now) && (kept != [] ==> Since(now, kept[0]) <= WINDOW)
    ensures Recent(times, now) == |kept|
  {
    var dropped := times[..|times| - |kept|];
    assert times == dropped + kept;
    forall i | 0 <= i < |kept| ensures Since(now, kept[i]) <= WINDOW {
      assert kept[i] == times[|dropped| + i] && kept[0] == times[|dropped|];
    }
    RecentOfOldAndNew(dropped, kept, now);
  }

  /** The deque of recent spends. */
  class RestartBudget {
    var spent: seq<nat>
    ghost var history: seq<nat>
    ghost var clock: nat

    ghost predicate Valid()
      reads this
    {
      Keeps(spent, history, clock)
    }

    constructor ()
      ensures Valid() && history == [] && clock == 0
    {
      spent, history, clock := [], [], 0;
    }

    /** Counts as if nothing had ever been dropped. */
    method Available(now: nat) returns (free: bool)
      requires Valid() && clock <= now
      modifies this`spent, this`clock
      ensures Valid() && clock == now
      ensures free <==> Recent(history, now) < LIMIT
    {
      Later(spent, history, clock, now);
      clock := now;
      while spent != [] && Since(now, spent[0]) > WINDOW
        invariant Keeps(spent, history, now) && clock == now
        decreases |spent|
      {
        DropFirst(spent, history, now);
        spent := spent[1..];
      }
      KeptIsRecent(spent, history, now);
      free := |spent| < LIMIT;
    }

    method Spend(now: nat)
      requires Valid() && clock == now
      modifies this`spent, this`history
      ensures Valid() && history == old(history) + [now]
    {
      spent := spent + [now];
      history := history + [now];
    }
  }

  /** What an attempt comes to: a new process, one that another process has started, or an error. */
  datatype Outcome = Started | Reused | Failed

  /** A turn of the loop: the time it reads, whether the watcher was stopped, and what an attempt would do. */
  datatype Turn = Turn(now: nat, stopped: bool, outcome: Outcome)

  datatype End = Waiting | Stopped | Running

  /** Which turns spend, and how the loop ends, by counting over the full history. */
  function Restarted(history: seq<nat>, turns: seq<Turn>): (seq<nat>, End)
    decreases |turns|
  {
    if turns == [] then (history, Waiting)
    else if turns[0].stopped then (history, Stopped)
    else if Recent(history, turns[0].now) >= LIMIT then Restarted(history, turns[1..])
    else
      // another process's restart is not spent
      var h := if turns[0].outcome == Reused then history else history + [turns[0].now];
      if turns[0].outcome == Failed then Restarted(h, turns[1..]) else (h, Running)
  }

  /** The clock does not go back, neither in the turns nor from what has been spent. */
  ghost predicate InTime(history: seq<nat>, turns: seq<Turn>) {
    && NonDecreasing(history)
    && (forall i, j :: 0 <= i <= j < |turns| ==> turns[i].now <= turns[j].now)
    && (forall i :: 0 <= i < |history| && turns != [] ==> history[i] <= turns[0].now)
  }

  /** Whatever attempts come to, any `LIMIT + 1` spends in a row span more than a window. */
  lemma {:induction false} SpendsStaySpaced(history: seq<nat>, turns: seq<Turn>)
    requires Spaced(history) && InTime(history, turns)
    ensures Spaced(Restarted(history, turns).0)
    decreases |turns|
  {
    if turns != [] && !turns[0].stopped {
      if Recent(history, turns[0].now) < LIMIT && turns[0].outcome != Reused {
        SpendKeepsSpacedIff(history, turns[0].now);
        if turns[0].outcome == Failed { SpendsStaySpaced(history + [turns[0].now], turns[1..]); }
      } else if Recent(history, turns[0].now) >= LIMIT {
        SpendsStaySpaced(history, turns[1..]);
      }
    }
  }

  /** `restart`, within the turns that the world has in store. */
  method Restart(budget: RestartBudget, turns: seq<Turn>) returns (end: End)
    requires budget.Valid()
    requires forall i, j :: 0 <= i <= j < |turns| ==> turns[i].now <= turns[j].now
    requires turns != [] ==> budget.clock <= turns[0].now
    modifies budget
    ensures budget.Valid()
    ensures (budget.history, end) == Restarted(old(budget.history), turns)
  {
    for i := 0 to |turns|
      invariant budget.Valid()
      invariant Restarted(old(budget.history), turns) == Restarted(budget.history, turns[i..])
      invariant i < |turns| ==> budget.clock <= turns[i].now
    {
      var turn := turns[i];
      assert turns[i..][0] == turn && turns[i..][1..] == turns[i + 1..];
      if turn.stopped { return Stopped; }
      var free := budget.Available(turn.now);
      if !free { continue; }
      match turn.outcome
      case Started =>
        budget.Spend(turn.now);
        return Running;
      case Reused => return Running;
      case Failed => budget.Spend(turn.now);
    }
    return Waiting;
  }
}
