/**
 The pump that forwards daemon lines to stdout (crates/server/src/proxy.rs) and the budget it
 waits for (proxy/budget.rs). The pump can be aborted at any of its awaits; `on_loss` then drains
 the line that the pump holds. Connections come one after the other over the same stdout.
 */
module Budget {
  import opened Wrappers

  const BUDGET: nat := 4 * 1024 * 1024

  /** A whole line, with its line feed. */
  type Line = s: seq<bv8> | s != [] witness [10]

  /** A line over the whole budget takes all of it. */
  function Cost(line: Line): nat {
    if |line| < BUDGET then |line| else BUDGET
  }

  // ----- The object

  /** `StdoutBudget`: the free permits, and the line that has been read and is not queued. */
  class StdoutBudget {
    var permits: nat
    var held: Option<Line>

    constructor ()
      ensures permits == BUDGET && held.None?
    {
      permits, held := BUDGET, None;
    }

    /** The part of `hold_until_free` before its await: 0 if the pump has to park. */
    method Hold(line: Line) returns (credit: nat)
      modifies this
      ensures held == Some(line)
      ensures credit > 0 <==> Cost(line) <= old(permits)
      ensures credit > 0 ==> credit == Cost(line)
      ensures permits + credit == old(permits)
    {
      held := Some(line);
      credit := 0;
      if Cost(line) <= permits {
        credit := Cost(line);
        permits := permits - credit;
      }
    }

    method TakeHeld() returns (line: Option<Line>)
      modifies this`held
      ensures line == old(held) && held.None?
    {
      line := held;
      held := None;
    }

    /** A permit is dropped: with the line it was queued with, or with an aborted pump. */
    method Release(credit: nat)
      modifies this`permits
      ensures permits == old(permits) + credit
    {
      permits := permits + credit;
    }
  }

  // ----- The transition system

  datatype Item = Credited(line: Line) | Drained(line: Line) | Forwarded(line: Line) | Own(line: Line)

  datatype Pump = Stopped | Reading | Parked | Granted

  datatype State = State(
    pump: Pump,
    permits: nat,
    held: Option<Line>,
    queue: seq<Item>,
    // history: the whole lines read from daemons, and what the writer has put on stdout
    read: seq<Line>,
    written: seq<Item>)

  const START := State(Stopped, BUDGET, None, [], [], [])

  datatype Event =
    | Connect
    | Read(line: Line)
    | Grant
    | Put
    | Eof
    | Loss
    | Forward(line: Line)
    | Answer(line: Line)
    | Write

  predicate Enabled(s: State, e: Event) {
    match e
    case Connect => s.pump == Stopped
    case Read(_) => s.pump == Reading
    case Grant => s.pump == Parked && s.held.Some? && Cost(s.held.value) <= s.permits
    case Put => s.pump == Granted && s.held.Some?
    case Eof => s.pump == Reading
    case Loss => true
    case Forward(_) => s.pump == Stopped && s.held.None?
    case Answer(_) => true
    case Write => s.queue != []
  }

  function Credit(item: Item): nat {
    if item.Credited? then Cost(item.line) else 0
  }

  /** The permit that a granted and not yet queued line has. */
  function Granting(s: State): nat {
    if s.pump == Granted && s.held.Some? then Cost(s.held.value) else 0
  }

  function Step(s: State, e: Event): State
    requires Enabled(s, e)
  {
    match e
    case Connect => s.(pump := Reading)
    case Read(line) =>
      var s1 := s.(held := Some(line), read := s.read + [line]);
      if Cost(line) <= s.permits then s1.(pump := Granted, permits := s.permits - Cost(line))
      else s1.(pump := Parked)
    case Grant => s.(pump := Granted, permits := s.permits - Cost(s.held.value))
    case Put => s.(pump := Reading, held := None, queue := s.queue + [Credited(s.held.value)])
    case Eof => s.(pump := Stopped)
    case Loss =>
      s.(pump := Stopped, permits := s.permits + Granting(s), held := None,
         queue := s.queue + if s.held.Some? then [Drained(s.held.value)] else [])
    case Forward(line) => s.(read := s.read + [line], queue := s.queue + [Forwarded(line)])
    case Answer(line) => s.(queue := s.queue + [Own(line)])
    case Write =>
      s.(permits := s.permits + Credit(s.queue[0]), queue := s.queue[1..], written := s.written + [s.queue[0]])
  }

  predicate Valid(s: State, es: seq<Event>)
    decreases |es|
  {
    es != [] ==> Enabled(s, es[0]) && Valid(Step(s, es[0]), es[1..])
  }

  function Exec(s: State, es: seq<Event>): State
    requires Valid(s, es)
    decreases |es|
  {
    if es == [] then s else Exec(Step(s, es[0]), es[1..])
  }

  // ----- Each line once, in order

  /** The daemon's lines among `items`, in order. */
  function DaemonLines(items: seq<Item>): seq<Line> {
    if items == [] then []
    else DaemonLines(items[..|items| - 1]) +
         if items[|items| - 1].Own? then [] else [items[|items| - 1].line]
  }

  function Held(s: State): seq<Line> {
    if s.held.Some? then [s.held.value] else []
  }

  predicate Delivers(s: State) {
    && DaemonLines(s.written + s.queue) + Held(s) == s.read
    && (s.held.Some? <==> s.pump in {Parked, Granted})
  }

  lemma DaemonLinesPush(items: seq<Item>, item: Item)
    ensures DaemonLines(items + [item]) == DaemonLines(items) + if item.Own? then [] else [item.line]
  {
    assert (items + [item])[..|items|] == items;
  }

  /** Queueing `item` puts its line after all that has been put on stdout and all that is queued. */
  lemma QueuedDelivers(s: State, item: Item)
    ensures DaemonLines(s.written + (s.queue + [item])) ==
            DaemonLines(s.written + s.queue) + if item.Own? then [] else [item.line]
  {
    assert s.written + (s.queue + [item]) == s.written + s.queue + [item];
    DaemonLinesPush(s.written + s.queue, item);
  }

  lemma LossDelivers(s: State)
    requires Delivers(s)
    ensures Delivers(Step(s, Loss))
  {
    if s.held.Some? {
      QueuedDelivers(s, Drained(s.held.value));
    } else {
      assert s.queue + [] == s.queue;
    }
  }

  lemma WriteDelivers(s: State)
    requires Delivers(s) && Enabled(s, Write)
    ensures Delivers(Step(s, Write))
  {
    assert s.written + [s.queue[0]] + s.queue[1..] == s.written + s.queue;
  }

  lemma DeliversStep(s: State, e: Event)
    requires Delivers(s) && Enabled(s, e)
    ensures Delivers(Step(s, e))
  {
    match e
    case Put => QueuedDelivers(s, Credited(s.held.value));
    case Loss => LossDelivers(s);
    case Forward(line) => QueuedDelivers(s, Forwarded(line));
    case Answer(line) => QueuedDelivers(s, Own(line));
    case Write => WriteDelivers(s);
    case _ =>
  }

  // ----- The budget

  function Credits(items: seq<Item>): nat {
    if items == [] then 0 else Credits(items[..|items| - 1]) + Credit(items[|items| - 1])
  }

  /** The bytes of the lines that were queued with a permit, or of those without. */
  function Bytes(items: seq<Item>, credited: bool): nat {
    if items == [] then 0
    else
      var last := items[|items| - 1];
      Bytes(items[..|items| - 1], credited) +
      if !last.Own? && last.Credited? == credited then |last.line| else 0
  }

  predicate Balanced(s: State) {
    s.permits + Credits(s.queue) + Granting(s) == BUDGET
  }

  lemma {:induction false} CreditsTail(items: seq<Item>)
    requires items != []
    ensures Credits(items) == Credit(items[0]) + Credits(items[1..])
  {
    if |items| == 1 {
      assert items[..0] == items[1..] == [];
    } else {
      var n := |items| - 1;
      CreditsTail(items[..n]);
      assert items[..n][1..] == items[1..][..n - 1];
    }
  }

  lemma BalancedStep(s: State, e: Event)
    requires Balanced(s) && Enabled(s, e)
    requires s.held.Some? <==> s.pump in {Parked, Granted}
    ensures Balanced(Step(s, e))
  {
    var s' := Step(s, e);
    assert s.queue + [] == s.queue;
    if e.Write? {
      CreditsTail(s.queue);
    } else if |s'.queue| > |s.queue| {
      assert s'.queue[..|s.queue|] == s.queue;
    }
  }

  lemma {:induction false} RunKeeps(s: State, es: seq<Event>)
    requires Delivers(s) && Balanced(s) && Valid(s, es)
    ensures Delivers(Exec(s, es)) && Balanced(Exec(s, es))
    decreases |es|
  {
    if es != [] {
      DeliversStep(s, es[0]);
      BalancedStep(s, es[0]);
      RunKeeps(Step(s, es[0]), es[1..]);
    }
  }

  /**
   However the pump is aborted, every whole line read from a daemon is put on stdout once and in
   the order it was read; only the one that is held is not there yet, and a loss puts it there.
   */
  lemma LinesAreDeliveredOnce(es: seq<Event>)
    requires Valid(START, es)
    ensures var s := Exec(START, es);
            && DaemonLines(s.written + s.queue) + Held(s) == s.read
            && DaemonLines(s.written + Step(s, Loss).queue) == s.read
  {
    RunKeeps(START, es);
    var s := Exec(START, es);
    DeliversStep(s, Loss);
  }

  /** The lines that the events of a run bring: from daemons, or of the proxy's own. */
  function LinesIn(es: seq<Event>, own: bool): seq<Line> {
    if es == [] then [] else LineIn(es[0], own) + LinesIn(es[1..], own)
  }

  function LineIn(e: Event, own: bool): seq<Line> {
    match e
    case Read(line) => if own then [] else [line]
    case Forward(line) => if own then [] else [line]
    case Answer(line) => if own then [line] else []
    case _ => []
  }

  function OwnLines(items: seq<Item>): seq<Line> {
    if items == [] then []
    else OwnLines(items[..|items| - 1]) + if items[|items| - 1].Own? then [items[|items| - 1].line] else []
  }

  lemma OwnLinesPush(items: seq<Item>, item: Item)
    ensures OwnLines(items + [item]) == OwnLines(items) + if item.Own? then [item.line] else []
  {
    assert (items + [item])[..|items|] == items;
  }

  /** What the writer has taken and what it is to take, as one sequence, only grows at its end. */
  lemma OwnLinesStep(s: State, e: Event)
    requires Enabled(s, e)
    ensures var s' := Step(s, e);
            OwnLines(s'.written + s'.queue) == OwnLines(s.written + s.queue) + LineIn(e, true)
  {
    var s', all := Step(s, e), s.written + s.queue;
    if |s'.queue| > |s.queue| {
      var item := s'.queue[|s.queue|];
      assert s'.written + s'.queue == all + [item];
      OwnLinesPush(all, item);
    } else {
      assert s'.written + s'.queue == all;
    }
  }

  function AllOwn(s: State): seq<Line> {
    OwnLines(s.written + s.queue)
  }

  lemma {:induction false} RunAnswers(s: State, es: seq<Event>)
    requires Valid(s, es)
    ensures AllOwn(Exec(s, es)) == AllOwn(s) + LinesIn(es, true)
    decreases |es|
  {
    if es != [] {
      var s1 := Step(s, es[0]);
      OwnLinesStep(s, es[0]);
      assert AllOwn(s1) == AllOwn(s) + LineIn(es[0], true);
      RunAnswers(s1, es[1..]);
      assert AllOwn(s) + LineIn(es[0], true) + LinesIn(es[1..], true) == AllOwn(s) + LinesIn(es, true);
    }
  }

  lemma ReadStep(s: State, e: Event)
    requires Enabled(s, e)
    ensures Step(s, e).read == s.read + LineIn(e, false)
  {
  }

  lemma {:induction false} RunReads(s: State, es: seq<Event>)
    requires Valid(s, es)
    ensures Exec(s, es).read == s.read + LinesIn(es, false)
    decreases |es|
  {
    if es != [] {
      var s1 := Step(s, es[0]);
      ReadStep(s, es[0]);
      RunReads(s1, es[1..]);
      var line, rest := LineIn(es[0], false), LinesIn(es[1..], false);
      assert LinesIn(es, false) == line + rest && s1.read == s.read + line && Exec(s, es).read == s1.read + rest;
      assert s.read + line + rest == s.read + (line + rest);
    }
  }

  /** In a run, every daemon line read or forwarded and every answer of the proxy gets to stdout, once and in order. */
  lemma StdoutGetsAll(es: seq<Event>)
    requires Valid(START, es)
    ensures var s := Exec(START, es);
            && DaemonLines(s.written + s.queue) + Held(s) == LinesIn(es, false)
            && OwnLines(s.written + s.queue) == LinesIn(es, true)
  {
    RunKeeps(START, es);
    RunAnswers(START, es);
    RunReads(START, es);
  }

  /** A connection was made, and has neither ended nor been lost since. */
  predicate Plugged(es: seq<Event>, was: bool)
    decreases |es|
  {
    if es == [] then was else Plugged(es[1..], es[0].Connect? || (was && !es[0].Eof? && !es[0].Loss?))
  }

  /** The pump runs just while a connection is up, whatever it waits for. */
  lemma {:induction false} PumpsWhilePlugged(s: State, es: seq<Event>)
    requires Valid(s, es)
    ensures Exec(s, es).pump != Stopped <==> Plugged(es, s.pump != Stopped)
    decreases |es|
  {
    if es != [] { PumpsWhilePlugged(Step(s, es[0]), es[1..]); }
  }

  /** A queue's credits cover its bytes, unless a line over the budget is in it. */
  lemma {:induction false} CreditsCover(items: seq<Item>)
    requires Credits(items) <= BUDGET
    ensures Bytes(items, true) == Credits(items) ||
            (Credits(items) == BUDGET && exists i :: 0 <= i < |items| && Alone(items, i))
  {
    if items != [] {
      var n := |items| - 1;
      CreditsCover(items[..n]);
      if Bytes(items[..n], true) == Credits(items[..n]) {
        if items[n].Credited? && |items[n].line| > BUDGET {
          assert Credits(items[..n]) == 0;
          NoCredits(items[..n]);
          assert Alone(items, n);
        }
      } else {
        var i :| 0 <= i < n && Alone(items[..n], i);
        assert Alone(items, i);
      }
    }
  }

  lemma {:induction false} NoCredits(items: seq<Item>)
    requires Credits(items) == 0
    ensures forall i :: 0 <= i < |items| ==> !items[i].Credited?
  {
    if items != [] { NoCredits(items[..|items| - 1]); }
  }

  /** The `i`-th item is over the budget, and the only one that the pump has queued. */
  ghost predicate Alone(items: seq<Item>, i: nat)
    requires i < |items|
  {
    items[i].Credited? && |items[i].line| > BUDGET && forall j :: 0 <= j < |items| && j != i ==> !items[j].Credited?
  }

  /**
   What the pump has queued stays within the budget, unless it is one line that takes all of it.
   Permits are never lost: what is free is the budget less the credits of what is queued or granted.
   */
  lemma PumpedBytesAreBounded(es: seq<Event>)
    requires Valid(START, es)
    ensures var s := Exec(START, es);
            && s.permits == BUDGET - Credits(s.queue) - Granting(s)
            && (Bytes(s.queue, true) <= BUDGET || exists i :: 0 <= i < |s.queue| && Alone(s.queue, i))
  {
    RunKeeps(START, es);
    CreditsCover(Exec(START, es).queue);
  }

  /** Over all runs, a line that the pump reads waits exactly if the credits queued leave too little for it. */
  lemma ParksIffFull(es: seq<Event>, line: Line)
    requires Valid(START, es) && Enabled(Exec(START, es), Read(line))
    ensures var s := Exec(START, es);
            && (Step(s, Read(line)).pump == Parked <==> Credits(s.queue) + (if |line| < BUDGET then |line| else BUDGET) > BUDGET)
            && (Step(s, Read(line)).pump != Parked ==> Enabled(Step(s, Read(line)), Put))
  {
    RunKeeps(START, es);
  }

  /** And it goes on when stdout has taken enough: at the latest when nothing that was metered is queued. */
  lemma ParkedPumpGoesOn(es: seq<Event>)
    requires Valid(START, es) && Exec(START, es).pump == Parked
    ensures var s := Exec(START, es);
            && s.held.Some?
            && (Enabled(s, Grant) <==> Credits(s.queue) + Cost(s.held.value) <= BUDGET)
            && (Enabled(s, Grant) ==> Enabled(Step(s, Grant), Put))
            && ((forall i :: 0 <= i < |s.queue| ==> !s.queue[i].Credited?) ==> Enabled(s, Grant))
  {
    RunKeeps(START, es);
    var s := Exec(START, es);
    if forall i :: 0 <= i < |s.queue| ==> !s.queue[i].Credited? { NoCredit(s.queue); }
  }

  lemma {:induction false} NoCredit(items: seq<Item>)
    requires forall i :: 0 <= i < |items| ==> !items[i].Credited?
    ensures Credits(items) == 0
  {
    if items != [] { NoCredit(items[..|items| - 1]); }
  }

  // ----- What is not metered

  /** Daemon bytes are in the budget, or one pumped line holds all of it with no other queued. */
  ghost predicate Within(items: seq<Item>) {
    Bytes(items, true) + Bytes(items, false) <= BUDGET || |DaemonLines(items)| <= 1
  }

  predicate Unmetered(item: Item) {
    item.Drained? || item.Forwarded?
  }

  lemma {:induction false} NoUnmetered(items: seq<Item>)
    requires forall i :: 0 <= i < |items| ==> !Unmetered(items[i])
    ensures Bytes(items, false) == 0
  {
    if items != [] { NoUnmetered(items[..|items| - 1]); }
  }

  lemma {:induction false} OneLine(items: seq<Item>, i: nat)
    requires i < |items| && Alone(items, i)
    requires forall j :: 0 <= j < |items| ==> !Unmetered(items[j])
    ensures |DaemonLines(items)| == 1
  {
    var n := |items| - 1;
    if i == n { OnlyOwn(items[..n]); } else { OneLine(items[..n], i); }
  }

  lemma {:induction false} OnlyOwn(items: seq<Item>)
    requires forall i :: 0 <= i < |items| ==> items[i].Own?
    ensures DaemonLines(items) == []
  {
    if items != [] { OnlyOwn(items[..|items| - 1]); }
  }

  /** The daemon's bytes leave the budget only through lines that are queued without a permit. */
  lemma MeteredStaysWithin(es: seq<Event>)
    requires Valid(START, es)
    requires forall i :: 0 <= i < |Exec(START, es).queue| ==> !Unmetered(Exec(START, es).queue[i])
    ensures Within(Exec(START, es).queue)
  {
    var queue := Exec(START, es).queue;
    PumpedBytesAreBounded(es);
    NoUnmetered(queue);
    if i :| 0 <= i < |queue| && Alone(queue, i) { OneLine(queue, i); }
  }

  function DaemonBytes(items: seq<Item>): nat {
    Bytes(items, true) + Bytes(items, false)
  }

  /**
   Over all runs the daemon's bytes are within the budget and what was queued without a permit, or
   one line over the budget is all that the pump has queued.
   */
  lemma DaemonBytesAreBounded(es: seq<Event>)
    requires Valid(START, es)
    ensures var queue := Exec(START, es).queue;
            || DaemonBytes(queue) <= BUDGET + Bytes(queue, false)
            || exists i :: 0 <= i < |queue| && Alone(queue, i) &&
                 DaemonBytes(queue) == |queue[i].line| + Bytes(queue, false)
  {
    var queue := Exec(START, es).queue;
    PumpedBytesAreBounded(es);
    if i :| 0 <= i < |queue| && Alone(queue, i) { AloneBytes(queue, i); }
  }

  lemma {:induction false} AloneBytes(items: seq<Item>, i: nat)
    requires i < |items| && Alone(items, i)
    ensures Bytes(items, true) == |items[i].line|
  {
    var n := |items| - 1;
    if i == n { NoPumped(items[..n]); } else { AloneBytes(items[..n], i); }
  }

  lemma {:induction false} NoPumped(items: seq<Item>)
    requires forall i :: 0 <= i < |items| ==> !items[i].Credited?
    ensures Bytes(items, true) == 0
  {
    if items != [] { NoPumped(items[..|items| - 1]); }
  }

  // ----- Exactly when the budget is kept

  /** The daemon's line that an event queues: the pump's, the one a loss drains, or a forwarded reply. */
  function Queues(s: State, e: Event): Option<Line>
    requires Enabled(s, e)
  {
    match e
    case Put => s.held
    case Loss => s.held
    case Forward(line) => Some(line)
    case _ => None
  }

  /** With the line the daemon's bytes are still in the budget, or it is the only line of a daemon. */
  predicate Room(items: seq<Item>, line: Line) {
    DaemonBytes(items) + |line| <= BUDGET || DaemonLines(items) == []
  }

  lemma PushBytes(items: seq<Item>, item: Item)
    ensures DaemonBytes(items + [item]) == DaemonBytes(items) + if item.Own? then 0 else |item.line|
    ensures Bytes(items + [item], false) == Bytes(items, false) + if Unmetered(item) then |item.line| else 0
  {
    assert (items + [item])[..|items|] == items;
  }

  /** A step that queues a daemon's line leaves the queue within the budget just if there was room for it. */
  lemma QueueingKeepsWithinIff(s: State, e: Event)
    requires Enabled(s, e) && Queues(s, e).Some?
    ensures Within(Step(s, e).queue) <==> Room(s.queue, Queues(s, e).value)
  {
    var line := Queues(s, e).value;
    var item := match e case Put => Credited(line) case Loss => Drained(line) case _ => Forwarded(line);
    assert Step(s, e).queue == s.queue + [item];
    PushBytes(s.queue, item);
    DaemonLinesPush(s.queue, item);
  }

  lemma {:induction false} WrittenShrinks(items: seq<Item>)
    requires items != []
    ensures DaemonBytes(items[1..]) <= DaemonBytes(items) && |DaemonLines(items[1..])| <= |DaemonLines(items)|
  {
    if |items| == 1 {
      assert items[1..] == [];
    } else {
      var n := |items| - 1;
      WrittenShrinks(items[..n]);
      assert items[..n][1..] == items[1..][..n - 1];
    }
  }

  lemma OthersKeepWithin(s: State, e: Event)
    requires Enabled(s, e) && Queues(s, e).None? && Within(s.queue)
    ensures Within(Step(s, e).queue)
  {
    match e
    case Loss => assert s.queue + [] == s.queue;
    case Answer(line) =>
      PushBytes(s.queue, Own(line));
      DaemonLinesPush(s.queue, Own(line));
    case Write => WrittenShrinks(s.queue);
    case _ =>
  }

  /** Each line that the run queues finds room. */
  predicate AllFit(s: State, es: seq<Event>)
    requires Valid(s, es)
    decreases |es|
  {
    es != [] ==> (Queues(s, es[0]).Some? ==> Room(s.queue, Queues(s, es[0]).value)) && AllFit(Step(s, es[0]), es[1..])
  }

  ghost predicate WithinAlong(s: State, es: seq<Event>) {
    forall n: nat :: n <= |es| ==> Valid(s, es[..n]) && Within(Exec(s, es[..n]).queue)
  }

  lemma WithinAlongUnfolds(s: State, es: seq<Event>)
    requires Valid(s, es) && es != []
    ensures WithinAlong(s, es) <==> Within(s.queue) && WithinAlong(Step(s, es[0]), es[1..])
  {
    var s1, rest := Step(s, es[0]), es[1..];
    assert es[..0] == [];
    forall n: nat | n < |es| ensures es[..n + 1][0] == es[0] && es[..n + 1][1..] == rest[..n] {}
    if WithinAlong(s, es) {
      assert Valid(s, es[..0]) && Within(Exec(s, es[..0]).queue);
      forall n: nat | n <= |rest| ensures Valid(s1, rest[..n]) && Within(Exec(s1, rest[..n]).queue) {
        assert Valid(s, es[..n + 1]) && Within(Exec(s, es[..n + 1]).queue);
      }
    }
    if Within(s.queue) && WithinAlong(s1, rest) {
      forall n: nat | n <= |es| ensures Valid(s, es[..n]) && Within(Exec(s, es[..n]).queue) {
        if n > 0 { assert Valid(s1, rest[..n - 1]) && Within(Exec(s1, rest[..n - 1]).queue); }
      }
    }
  }

  /** Of every run: the daemon's bytes are within the budget all along, exactly if each line queued finds room. */
  lemma {:induction false} RunStaysWithinIff(s: State, es: seq<Event>)
    requires Valid(s, es) && Within(s.queue)
    ensures WithinAlong(s, es) <==> AllFit(s, es)
    decreases |es|
  {
    if es == [] {
      assert es[..0] == [];
    } else {
      var s1 := Step(s, es[0]);
      WithinAlongUnfolds(s, es);
      if Queues(s, es[0]).Some? { QueueingKeepsWithinIff(s, es[0]); } else { OthersKeepWithin(s, es[0]); }
      if Within(s1.queue) {
        RunStaysWithinIff(s1, es[1..]);
      } else {
        assert es[1..][..0] == [];
      }
    }
  }

  lemma Then(s: State, e: Event, es: seq<Event>)
    requires Enabled(s, e) && Valid(Step(s, e), es)
    ensures Valid(s, [e] + es) && Exec(s, [e] + es) == Exec(Step(s, e), es)
  {
    assert ([e] + es)[1..] == es;
  }

  lemma TwoLinesExceed(a: Item, b: Item)
    requires !a.Own? && !b.Own? && |a.line| + |b.line| > BUDGET
    ensures !Within([a, b]) && DaemonBytes([a, b]) == |a.line| + |b.line|
    ensures Bytes([a, b], false) == (if Unmetered(a) then |a.line| else 0) + (if Unmetered(b) then |b.line| else 0)
  {
    assert [] + [a] == [a] && [a] + [b] == [a, b];
    PushBytes([], a);
    PushBytes([a], b);
    DaemonLinesPush([], a);
    DaemonLinesPush([a], b);
  }

  /** The steps up to a queue that one line fills. */
  lemma OneLineQueued(big: Line, es: seq<Event>) returns (s: State)
    requires |big| == BUDGET
    ensures s == State(Reading, 0, None, [Credited(big)], [big], [])
    ensures Valid(s, es) ==>
              var run := [Connect] + ([Read(big)] + ([Put] + es)); Valid(START, run) && Exec(START, run) == Exec(s, es)
  {
    var s1 := Step(START, Connect);
    var s2 := Step(s1, Read(big));
    s := Step(s2, Put);
    if Valid(s, es) {
      Then(s2, Put, es);
      Then(s1, Read(big), [Put] + es);
      Then(START, Connect, [Read(big)] + ([Put] + es));
    }
  }

  /** Such a loss does happen: a client that stops reading, and a daemon that dies with a full queue. */
  lemma DrainExceedsBudget(big: Line, small: Line) returns (es: seq<Event>)
    requires |big| == BUDGET
    ensures Valid(START, es)
    ensures var s := Exec(START, es);
            && s.read == [big, small] && !Within(s.queue) && DaemonBytes(s.queue) == BUDGET + Bytes(s.queue, false)
  {
    es := [Read(small)] + ([Loss] + []);
    var s := OneLineQueued(big, es);
    var s1 := Step(s, Read(small));
    var s2 := Step(s1, Loss);
    Then(s1, Loss, []);
    Then(s, Read(small), [Loss] + []);
    assert s2.queue == [Credited(big), Drained(small)];
    TwoLinesExceed(Credited(big), Drained(small));
    es := [Connect] + ([Read(big)] + ([Put] + es));
  }

  /** So does a reply to `initialize` that is forwarded while the queue is full. */
  lemma ForwardExceedsBudget(big: Line, reply: Line) returns (es: seq<Event>)
    requires |big| == BUDGET
    ensures Valid(START, es) && Exec(START, es).read == [big, reply] && !Within(Exec(START, es).queue)
  {
    es := [Loss] + ([Forward(reply)] + []);
    var s := OneLineQueued(big, es);
    var s1 := Step(s, Loss);
    var s2 := Step(s1, Forward(reply));
    Then(s1, Forward(reply), []);
    Then(s, Loss, [Forward(reply)] + []);
    assert s1.queue == [Credited(big)] && s2.queue == [Credited(big), Forwarded(reply)];
    TwoLinesExceed(Credited(big), Forwarded(reply));
    es := [Connect] + ([Read(big)] + ([Put] + es));
  }

  /** And the pump itself exceeds it once a drained line is queued, since that has taken no permit. */
  lemma PutAfterDrainExceedsBudget(big: Line, small: Line) returns (es: seq<Event>)
    requires |big| == BUDGET && |small| < BUDGET
    ensures Valid(START, es) && Exec(START, es).read == [small, big] && !Within(Exec(START, es).queue)
  {
    var s1 := Step(START, Connect);
    var s2 := Step(s1, Read(small));
    var s3 := Step(s2, Loss);
    assert s3 == State(Stopped, BUDGET, None, [Drained(small)], [small], []);
    var s4 := Step(s3, Connect);
    var s5 := Step(s4, Read(big));
    var s6 := Step(s5, Put);
    Then(s5, Put, []);
    es := [Put] + [];
    Then(s4, Read(big), es);
    es := [Read(big)] + es;
    Then(s3, Connect, es);
    es := [Connect] + es;
    Then(s2, Loss, es);
    es := [Loss] + es;
    Then(s1, Read(small), es);
    es := [Read(small)] + es;
    Then(START, Connect, es);
    es := [Connect] + es;
    assert s6.queue == [Drained(small), Credited(big)];
    TwoLinesExceed(Drained(small), Credited(big));
  }
}
