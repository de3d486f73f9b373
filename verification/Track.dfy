/**
 The JSON-RPC tracker of the stdio proxy (crates/server/src/proxy/track.rs).

 A line is modelled after parsing: `env` is `None` for anything that is not a JSON object
 with the expected member types. `at` names the line: its place in the client's input, which
 stands for its bytes, since two lines with equal bytes are still two lines. `verb` is the
 JSON-RPC `method` member.
 */
module Track {
  import opened Wrappers

  datatype Id = Null | Num(n: int) | Str(s: string)

  datatype Envelope = Envelope(id: Option<Id>, verb: Option<string>, hasResult: bool, hasError: bool)

  datatype Line = Line(at: nat, env: Option<Envelope>)

  datatype ClientLine = Request | Notification | CacheOnly | Untracked

  datatype Link = Up | Down | Reconnecting

  datatype Outcome = Success | Error

  const INITIALIZE := "initialize"
  const INITIALIZED := "notifications/initialized"

  datatype KeptRequest = KeptRequest(id: Id, line: Line, initialize: bool, generation: nat)

  /** An in-flight request: the id and method the proxy keeps, and which client line it was. */
  datatype InFlight = InFlight(id: Id, verb: string, at: nat)

  datatype TrackerState = TrackerState(
    inFlight: map<Id, InFlight>,
    initialised: bool,
    initialize: Option<Line>,
    initialized: Option<Line>,
    keptFirst: Option<KeptRequest>,
    keptGeneration: nat,
    link: Link,
    replayStarted: bool)

  const EMPTY_TRACKER := TrackerState(map[], false, None, None, None, 0, Up, false)

  // ----- Reading a line

  predicate IsRequest(line: Line) {
    line.env.Some? && line.env.value.verb.Some? && line.env.value.id.Some?
  }

  function RequestId(line: Line): Option<Id> {
    if line.env.Some? && line.env.value.verb.Some? then line.env.value.id else None
  }

  predicate IsInitialized(line: Line) {
    line.env.Some? && line.env.value.id.None? && line.env.value.verb == Some(INITIALIZED)
  }

  /** A line with an id and no method: what `on_daemon_line` looks up in flight. */
  predicate IsResponse(line: Line) {
    line.env.Some? && line.env.value.verb.None? && line.env.value.id.Some?
  }

  function ResponseOutcome(line: Line, id: Id): Option<Outcome> {
    if !IsResponse(line) || line.env.value.id.value != id then None
    else if line.env.value.hasError then Some(Error)
    else if line.env.value.hasResult then Some(Success)
    else None
  }

  predicate CountsForLifecycle(verb: string) {
    verb != "ping" && verb != "server/discover"
  }

  // ----- The tracker as a function of its state

  predicate ReplaysHandshake(t: TrackerState) {
    t.initialised && t.initialize.Some?
  }

  function OnClientLine(t: TrackerState, line: Line): (TrackerState, ClientLine) {
    if line.env.None? || line.env.value.verb.None? then (t, Untracked)
    else if line.env.value.id.None? then
      if line.env.value.verb.value == INITIALIZED then
        var t' := t.(initialized := Some(line));
        if t.link == Reconnecting && ReplaysHandshake(t) && !t.replayStarted then (t', CacheOnly)
        else (t', Notification)
      else (t, Notification)
    else (TrackRequest(t, line), Request)
  }

  function TrackRequest(t: TrackerState, line: Line): TrackerState
    requires IsRequest(line)
  {
    var id, verb := line.env.value.id.value, line.env.value.verb.value;
    var t1 := if !t.initialised && verb == INITIALIZE then t.(initialize := Some(line)) else t;
    var t2 :=
      if !t.initialised && t.keptFirst.None? && CountsForLifecycle(verb) then
        t1.(keptGeneration := t.keptGeneration + 1,
            keptFirst := Some(KeptRequest(id, line, verb == INITIALIZE, t.keptGeneration + 1)))
      else t1;
    t2.(inFlight := t.inFlight[id := InFlight(id, verb, line.at)])
  }

  function OnDaemonLine(t: TrackerState, line: Line): TrackerState {
    if !IsResponse(line) then t
    else
      var id := line.env.value.id.value;
      if id !in t.inFlight then t
      else
        var t' := t.(inFlight := t.inFlight - {id});
        if t.initialised then t'
        else if line.env.value.hasResult && CountsForLifecycle(t.inFlight[id].verb) then
          t'.(initialised := true, keptFirst := None)
        else if line.env.value.hasError && t.keptFirst.Some? && t.keptFirst.value.id == id then
          t'.(keptFirst := None)
        else t'
  }

  function SetLink(t: TrackerState, link: Link): TrackerState {
    t.(link := link, replayStarted := false)
  }

  function KeptInFlight(t: TrackerState): Option<KeptRequest> {
    if t.keptFirst.Some? && t.keptFirst.value.id in t.inFlight then t.keptFirst else None
  }

  // ----- The tracker as the object the proxy updates in place

  class Tracker {
    var inFlight: map<Id, InFlight>
    var initialised: bool
    var initialize: Option<Line>
    var initialized: Option<Line>
    var keptFirst: Option<KeptRequest>
    var keptGeneration: nat
    var link: Link
    var replayStarted: bool

    ghost function State(): TrackerState
      reads this
    {
      TrackerState(inFlight, initialised, initialize, initialized, keptFirst, keptGeneration, link, replayStarted)
    }

    constructor ()
      ensures State() == EMPTY_TRACKER
    {
      inFlight, initialised, initialize, initialized := map[], false, None, None;
      keptFirst, keptGeneration, link, replayStarted := None, 0, Up, false;
    }

    method ClientLineSeen(line: Line) returns (kind: ClientLine)
      modifies this
      ensures (State(), kind) == OnClientLine(old(State()), line)
    {
      if line.env.None? || line.env.value.verb.None? { return Untracked; }
      var verb := line.env.value.verb.value;
      if line.env.value.id.None? {
        if verb == INITIALIZED {
          initialized := Some(line);
          if link == Reconnecting && initialised && initialize.Some? && !replayStarted { return CacheOnly; }
        }
        return Notification;
      }
      var id := line.env.value.id.value;
      if !initialised {
        if verb == INITIALIZE { initialize := Some(line); }
        if keptFirst.None? && CountsForLifecycle(verb) {
          keptGeneration := keptGeneration + 1;
          keptFirst := Some(KeptRequest(id, line, verb == INITIALIZE, keptGeneration));
        }
      }
      inFlight := inFlight[id := InFlight(id, verb, line.at)];
      return Request;
    }

    method DaemonLineSeen(line: Line)
      modifies this
      ensures State() == OnDaemonLine(old(State()), line)
    {
      if !IsResponse(line) { return; }
      var id := line.env.value.id.value;
      if id !in inFlight { return; }
      var verb := inFlight[id].verb;
      inFlight := inFlight - {id};
      if initialised { return; }
      if line.env.value.hasResult && CountsForLifecycle(verb) {
        initialised := true;
        keptFirst := None;
      } else if line.env.value.hasError && keptFirst.Some? && keptFirst.value.id == id {
        keptFirst := None;
      }
    }

    method PutLink(l: Link)
      modifies this`link, this`replayStarted
      ensures State() == SetLink(old(State()), l)
    {
      link, replayStarted := l, false;
    }

    method MarkReplayStarted()
      modifies this`replayStarted
      ensures State() == old(State()).(replayStarted := true)
    {
      replayStarted := true;
    }

    /** Drains the table, or all of it but `keep`, in the arbitrary order of a hash map. */
    method TakeInFlight(keep: Option<Id>) returns (ids: seq<Id>)
      modifies this`inFlight
      ensures Lists(ids, old(inFlight.Keys) - Keep(keep))
      ensures inFlight == Only(old(inFlight), keep)
      ensures State() == old(State()).(inFlight := inFlight)
    {
      ids := Drain(inFlight.Keys - Keep(keep));
      inFlight := Only(inFlight, keep);
    }
  }

  function Keep(keep: Option<Id>): set<Id> {
    if keep.Some? then {keep.value} else {}
  }

  function Only(m: map<Id, InFlight>, keep: Option<Id>): map<Id, InFlight> {
    map id | id in m && id in Keep(keep) :: m[id]
  }

  /** `ids` is the set `s` written out, each member once. */
  ghost predicate Lists(ids: seq<Id>, s: set<Id>) {
    multiset(ids) == multiset(s)
  }

  method Drain(keys: set<Id>) returns (ids: seq<Id>)
    ensures Lists(ids, keys)
  {
    var left := keys;
    ids := [];
    while left != {}
      invariant left <= keys && Lists(ids, keys - left)
    {
      var id :| id in left;
      ListsPush(ids, keys - left, id);
      assert keys - (left - {id}) == (keys - left) + {id};
      ids, left := ids + [id], left - {id};
    }
    assert keys - left == keys;
  }

  lemma ListsPush(ids: seq<Id>, s: set<Id>, id: Id)
    requires Lists(ids, s) && id !in s
    ensures Lists(ids + [id], s + {id})
  {
  }
}
