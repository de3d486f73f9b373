/**
 How proxies and daemons of one key share a socket path, a PID file and a spawn lock
 (crates/server/src/daemon/spawn.rs, daemon.rs and daemon/addr.rs). Any number of proxies and
 daemons take their steps in any order; a check and the act that follows it are two steps. A
 daemon's number stands for its process id and for the inode of the socket it binds.
 */
module SpawnLock {
  import opened Wrappers

  // ----- State

  /** How far a proxy that holds the spawn lock has got in `connect_or_spawn`. */
  datatype ProxyStage = Locked | Refused | Stale | Clear | Waiting(child: nat) | Killed

  /** A proxy matters only while it holds the lock. */
  datatype Holder = Free | ByProxy(proxy: nat, stage: ProxyStage) | ByDaemon(daemon: nat)

  /**
   `Starting` to `Serving` is `Daemon::bind`, and `CheckOwn` to `Withdrawn` its failure to write
   the PID file. `Closed` to `Gone` is `finish` under the lock; without it, the listener closes
   and the daemon is `Finishing`, which it is until its service has shut down.
   */
  datatype Stage =
    | Starting
    | Bound
    | Known
    | CheckOwn
    | Withdraw(ours: bool)
    | Withdrawn
    | Serving
    | Closed
    | PidRead(ours: bool)
    | PidDone
    | SocketRead(ours: bool)
    | Gone
    | Finishing
    | Dead

  datatype Daemon = Daemon(stage: Stage, socketId: Option<nat>)

  /** `socket` and `pidFile` are what the two paths name. */
  datatype State = State(daemons: map<nat, Daemon>, holder: Holder, socket: Option<nat>, pidFile: Option<nat>)

  const START := State(map[], Free, None, None)

  predicate Is(s: State, d: nat, stage: Stage) {
    d in s.daemons && s.daemons[d].stage == stage
  }

  /** The kernel completes connections to it. */
  predicate Listens(s: State, d: nat) {
    d in s.daemons &&
    match s.daemons[d].stage
    case Bound | Known | CheckOwn | Withdraw(_) | Withdrawn | Serving => true
    case _ => false
  }

  /** It listens, and has not itself given its socket up. */
  predicate Reachable(s: State, d: nat) {
    Listens(s, d) && s.daemons[d].stage != Withdrawn
  }

  /** `pid_file_held` would find the lock on its PID file taken. */
  predicate HoldsPid(s: State, d: nat) {
    d in s.daemons &&
    match s.daemons[d].stage
    case Serving | Closed | PidRead(_) | PidDone | SocketRead(_) | Gone | Finishing => true
    case _ => false
  }

  // ----- Steps

  datatype Event =
    // a proxy
    | Lock(p: nat)
    | ConnectOk(p: nat)
    | NotFound(p: nat)
    | Refuse(p: nat)
    | PidCheck(p: nat)
    | GiveUp(p: nat)
    | RemoveStale(p: nat)
    | Spawn(p: nat, child: nat)
    | Accepted(p: nat)
    | Kill(p: nat)
    | Release(p: nat)
    // a daemon
    | Bind(d: nat)
    | Stat(d: nat)
    | WritePid(d: nat, ok: bool)
    | CheckOwnSocket(d: nat)
    | RemoveOwnSocket(d: nat)
    | LockForExit(d: nat)
    | CancelExit(d: nat)
    | Commit(d: nat)
    | CommitUnlocked(d: nat)
    | ReadPid(d: nat)
    | RemovePid(d: nat)
    | ReadSocket(d: nat)
    | RemoveSocket(d: nat)
    | Unlock(d: nat)
    | Die(d: nat)

  predicate Holds(s: State, p: nat, stage: ProxyStage) {
    s.holder == ByProxy(p, stage)
  }

  predicate Enabled(s: State, e: Event) {
    match e
    case Lock(_) => s.holder.Free?
    case ConnectOk(p) => Holds(s, p, Locked) && s.socket.Some? && Listens(s, s.socket.value)
    case NotFound(p) => Holds(s, p, Locked) && s.socket.None?
    // a live listener refuses only once it holds its PID lock
    case Refuse(p) =>
      Holds(s, p, Locked) && s.socket.Some? && (Listens(s, s.socket.value) ==> HoldsPid(s, s.socket.value))
    case PidCheck(p) => Holds(s, p, Refused)
    case GiveUp(p) =>
      s.holder.ByProxy? && s.holder.proxy == p && (s.holder.stage in {Locked, Refused, Stale, Clear})
    case RemoveStale(p) => Holds(s, p, Stale)
    case Spawn(p, child) => Holds(s, p, Clear) && child !in s.daemons
    case Accepted(p) =>
      && s.holder.ByProxy? && s.holder.proxy == p && s.holder.stage.Waiting?
      && s.socket.Some? && Listens(s, s.socket.value)
    case Kill(p) => s.holder.ByProxy? && s.holder.proxy == p && s.holder.stage.Waiting?
    case Release(p) => Holds(s, p, Killed)
    case Bind(d) => Is(s, d, Starting)
    case Stat(d) => Is(s, d, Bound)
    case WritePid(d, _) => Is(s, d, Known)
    case CheckOwnSocket(d) => Is(s, d, CheckOwn)
    case RemoveOwnSocket(d) => d in s.daemons && s.daemons[d].stage.Withdraw?
    case LockForExit(d) => Is(s, d, Serving) && s.holder.Free?
    case CancelExit(d) => Is(s, d, Serving) && s.holder == ByDaemon(d)
    case Commit(d) => Is(s, d, Serving) && s.holder == ByDaemon(d)
    case CommitUnlocked(d) => Is(s, d, Serving) && s.holder != ByDaemon(d)
    case ReadPid(d) => Is(s, d, Closed)
    case RemovePid(d) => d in s.daemons && s.daemons[d].stage.PidRead?
    case ReadSocket(d) => Is(s, d, PidDone)
    case RemoveSocket(d) => d in s.daemons && s.daemons[d].stage.SocketRead?
    case Unlock(d) => Is(s, d, Gone)
    // a crash, a failure to bind, or the end of a clean exit
    case Die(d) => d in s.daemons && s.daemons[d].stage != Dead
  }

  /** A proxy's step on the lock alone. */
  function Holding(s: State, p: nat, stage: ProxyStage): State {
    s.(holder := ByProxy(p, stage))
  }

  function Goes(s: State, d: nat, stage: Stage): State
    requires d in s.daemons
  {
    s.(daemons := s.daemons[d := s.daemons[d].(stage := stage)])
  }

  function Step(s: State, e: Event): State
    requires Enabled(s, e)
  {
    match e
    case Lock(p) => Holding(s, p, Locked)
    case ConnectOk(p) => s.(holder := Free)
    case NotFound(p) => Holding(s, p, Stale)
    case Refuse(p) => Holding(s, p, Refused)
    case PidCheck(p) =>
      if s.pidFile.Some? && HoldsPid(s, s.pidFile.value) then s.(holder := Free) else Holding(s, p, Stale)
    case GiveUp(p) => s.(holder := Free)
    case RemoveStale(p) => Holding(s, p, Clear).(socket := None)
    case Spawn(p, child) =>
      Holding(s, p, Waiting(child)).(daemons := s.daemons[child := Daemon(Starting, None)])
    case Accepted(p) => s.(holder := Free)
    case Kill(p) =>
      var child := s.holder.stage.child;
      Holding(if child in s.daemons then Goes(s, child, Dead) else s, p, Killed)
    case Release(p) => s.(holder := Free)
    case Bind(d) => if s.socket.Some? then Goes(s, d, Dead) else Goes(s, d, Bound).(socket := Some(d))
    case Stat(d) =>
      if s.socket.None? then Goes(s, d, Dead)
      else s.(daemons := s.daemons[d := Daemon(Known, s.socket)])
    case WritePid(d, ok) => if ok then Goes(s, d, Serving).(pidFile := Some(d)) else Goes(s, d, CheckOwn)
    case CheckOwnSocket(d) => Goes(s, d, Withdraw(s.socket.Some? && s.socket == s.daemons[d].socketId))
    case RemoveOwnSocket(d) =>
      Goes(s, d, Withdrawn).(socket := if s.daemons[d].stage.ours then None else s.socket)
    case LockForExit(d) => s.(holder := ByDaemon(d))
    case CancelExit(d) => s.(holder := Free)
    case Commit(d) => Goes(s, d, Closed)
    case CommitUnlocked(d) => Goes(s, d, Finishing)
    case ReadPid(d) => Goes(s, d, PidRead(s.pidFile == Some(d)))
    case RemovePid(d) => Goes(s, d, PidDone).(pidFile := if s.daemons[d].stage.ours then None else s.pidFile)
    case ReadSocket(d) => Goes(s, d, SocketRead(s.socket.Some? && s.socket == s.daemons[d].socketId))
    case RemoveSocket(d) => Goes(s, d, Gone).(socket := if s.daemons[d].stage.ours then None else s.socket)
    case Unlock(d) => Goes(s, d, Finishing).(holder := Free)
    case Die(d) => Goes(s, d, Dead).(holder := if s.holder == ByDaemon(d) then Free else s.holder)
  }

  predicate Valid(s: State, es: seq<Event>)
    decreases |es|
  {
    es != [] ==> Enabled(s, es[0]) && Valid(Step(s, es[0]), es[1..])
  }

  function Exec(s: State, es: seq<Event>): State
    requires Valid(s, es)
    decreases |es|
  {
    if es == [] then s else Exec(Step(s, es[0]), es[1..])
  }

  // ----- The invariant

  /** The daemon is leaving under the lock. */
  predicate Leaving(stage: Stage) {
    stage.Closed? || stage.PidRead? || stage.PidDone? || stage.SocketRead? || stage.Gone?
  }

  /** What holds of a daemon by the stage it is in. */
  predicate Fits(s: State, d: nat)
    requires d in s.daemons
  {
    var Daemon(stage, id) := s.daemons[d];
    && (stage.Starting? ==> s.holder.ByProxy? && s.holder.stage == Waiting(d))
    && (Reachable(s, d) || (Leaving(stage) && !stage.Gone?) ==> s.socket == Some(d))
    && (stage.Serving? || stage.Closed? || stage.PidRead? ==> s.pidFile == Some(d))
    && (Leaving(stage) ==> s.holder == ByDaemon(d))
    && (stage.Withdraw? || stage.SocketRead? || stage.PidRead? ==> stage.ours)
    && (stage.PidDone? || stage.SocketRead? || stage.Gone? ==> s.pidFile != Some(d))
    && (stage.Withdrawn? || stage.Gone? ==> s.socket != Some(d))
    && (stage.Finishing? && s.socket == Some(d) ==> s.pidFile == Some(d) && !(s.holder.ByProxy? && s.holder.stage.Stale?))
    && (id.Some? ==> id.value == d)
    && (!stage.Starting? && !stage.Bound? && !stage.Dead? ==> id.Some?)
  }

  /** What holds of the lock by how far its holder has got. */
  ghost predicate LockFits(s: State) {
    match s.holder
    case Free => true
    case ByDaemon(d) => d in s.daemons && (s.daemons[d].stage.Serving? || Leaving(s.daemons[d].stage))
    case ByProxy(_, Refused) => forall d :: Reachable(s, d) ==> s.daemons[d].stage.Serving?
    case ByProxy(_, Stale) => forall d :: !Reachable(s, d)
    case ByProxy(_, Clear) => s.socket.None?
    case ByProxy(_, Waiting(c)) => c in s.daemons && forall d :: Reachable(s, d) ==> d == c
    case _ => true
  }

  ghost predicate Inv(s: State) {
    LockFits(s) && forall d :: d in s.daemons ==> Fits(s, d)
  }

  predicate OfProxy(e: Event) {
    e.Lock? || e.ConnectOk? || e.NotFound? || e.Refuse? || e.PidCheck? || e.GiveUp? || e.RemoveStale? ||
    e.Spawn? || e.Accepted? || e.Kill? || e.Release?
  }

  lemma ProxyKeepsFits(s: State, e: Event, d: nat)
    requires LockFits(s) && Enabled(s, e) && OfProxy(e) && d in Step(s, e).daemons
    requires d in s.daemons ==> Fits(s, d)
    requires s.socket.Some? && s.socket.value in s.daemons ==> Fits(s, s.socket.value)
    ensures Fits(Step(s, e), d)
  {
    if e.RemoveStale? { assert !Reachable(s, d); }
    if e.Accepted? { assert Reachable(s, s.socket.value); }
  }

  lemma OwnStepKeepsFits(s: State, e: Event, d: nat)
    requires LockFits(s) && Enabled(s, e) && !OfProxy(e) && e.d == d
    requires d in s.daemons && Fits(s, d)
    ensures Fits(Step(s, e), d)
  {
    if e.CommitUnlocked? { assert Reachable(s, d); }
  }

  lemma OtherStepKeepsFits(s: State, e: Event, d: nat)
    requires LockFits(s) && Enabled(s, e) && !OfProxy(e) && e.d != d
    requires d in s.daemons && Fits(s, d) && Fits(s, e.d)
    ensures Fits(Step(s, e), d)
  {
  }

  lemma StepKeepsFits(s: State, e: Event, d: nat)
    requires Inv(s) && Enabled(s, e) && d in Step(s, e).daemons
    ensures Fits(Step(s, e), d)
  {
    assert d in s.daemons ==> Fits(s, d);
    if OfProxy(e) {
      assert s.socket.Some? && s.socket.value in s.daemons ==> Fits(s, s.socket.value);
      ProxyKeepsFits(s, e, d);
    } else {
      assert Fits(s, e.d);
      if e.d == d { OwnStepKeepsFits(s, e, d); } else { OtherStepKeepsFits(s, e, d); }
    }
  }

  /** Only binding makes a daemon reachable, and only the child of a waiting proxy can bind. */
  lemma ReachableFrom(s: State, e: Event, d: nat)
    requires Inv(s) && Enabled(s, e) && Reachable(Step(s, e), d)
    ensures d in s.daemons && Fits(s, d)
    ensures Reachable(s, d) || (e == Bind(d) && s.holder.ByProxy? && s.holder.stage == Waiting(d))
    ensures Reachable(s, d) && s.daemons[d].stage.Serving? ==> Step(s, e).daemons[d].stage.Serving?
  {
    assert d in s.daemons ==> Fits(s, d);
  }

  lemma RefusedFits(s: State, e: Event, p: nat)
    requires Inv(s) && Enabled(s, e) && Step(s, e).holder == ByProxy(p, Refused)
    ensures LockFits(Step(s, e))
  {
    forall d | Reachable(Step(s, e), d) ensures Step(s, e).daemons[d].stage.Serving? { ReachableFrom(s, e, d); }
  }

  lemma StaleFits(s: State, e: Event, p: nat)
    requires Inv(s) && Enabled(s, e) && Step(s, e).holder == ByProxy(p, Stale)
    ensures LockFits(Step(s, e))
  {
    forall d ensures !Reachable(Step(s, e), d) {
      if Reachable(Step(s, e), d) { ReachableFrom(s, e, d); }
    }
  }

  lemma WaitingFits(s: State, e: Event, p: nat, c: nat)
    requires Inv(s) && Enabled(s, e) && Step(s, e).holder == ByProxy(p, Waiting(c))
    ensures LockFits(Step(s, e))
  {
    forall d | Reachable(Step(s, e), d) ensures d == c { ReachableFrom(s, e, d); }
  }

  lemma StepKeepsLockFits(s: State, e: Event)
    requires Inv(s) && Enabled(s, e)
    ensures LockFits(Step(s, e))
  {
    match Step(s, e).holder
    case ByProxy(p, Refused) => RefusedFits(s, e, p);
    case ByProxy(p, Stale) => StaleFits(s, e, p);
    case ByProxy(p, Waiting(c)) => WaitingFits(s, e, p, c);
    case ByProxy(_, Clear) =>
      forall d | Is(s, d, Starting) ensures s.holder.ByProxy? && s.holder.stage == Waiting(d) { assert Fits(s, d); }
    case _ =>
  }

  lemma StepKeeps(s: State, e: Event)
    requires Inv(s) && Enabled(s, e)
    ensures Inv(Step(s, e))
  {
    StepKeepsLockFits(s, e);
    forall d | d in Step(s, e).daemons ensures Fits(Step(s, e), d) { StepKeepsFits(s, e, d); }
  }

  lemma {:induction false} RunKeeps(s: State, es: seq<Event>)
    requires Inv(s) && Valid(s, es)
    ensures Inv(Exec(s, es))
    decreases |es|
  {
    if es != [] {
      StepKeeps(s, es[0]);
      RunKeeps(Step(s, es[0]), es[1..]);
    }
  }

  // ----- The promises

  /**
   A daemon that takes a path away finds itself there, and so does one that writes its PID file; a
   proxy takes the socket away only if nobody can be reached.
   */
  lemma Takers(s: State, e: Event)
    requires Inv(s) && Enabled(s, e)
    ensures e.RemoveOwnSocket? || e.RemoveSocket? || e.WritePid? ==> s.socket == Some(e.d)
    ensures e.RemovePid? ==> s.pidFile == Some(e.d) && s.socket == Some(e.d)
    ensures e.Bind? ==> s.holder.ByProxy? && s.holder.stage == Waiting(e.d)
    ensures e.RemoveOwnSocket? ==> s.daemons[e.d].stage.Withdraw?
    ensures e.RemoveSocket? ==> Leaving(s.daemons[e.d].stage)
    ensures e.RemoveStale? ==> forall d :: !Reachable(s, d)
    ensures e.RemoveStale? ==> forall d: nat :: Is(s, d, Finishing) ==> s.socket != Some(d)
  {
    if !OfProxy(e) { assert Fits(s, e.d); }
    forall d: nat | Is(s, d, Finishing) && e.RemoveStale? ensures s.socket != Some(d) { assert Fits(s, d); }
  }

  /** At no time do two daemons accept, nor can two be reached; and the socket path leads to it. */
  lemma AtMostOneAccepts(es: seq<Event>, d: nat, d': nat)
    requires Valid(START, es) && Reachable(Exec(START, es), d) && Reachable(Exec(START, es), d')
    ensures d == d' && Exec(START, es).socket == Some(d)
  {
    RunKeeps(START, es);
    assert Fits(Exec(START, es), d) && Fits(Exec(START, es), d');
  }

  /** A path that leads to a daemon that accepts is unlinked or rebound by nobody. */
  lemma PathsOfServingDaemonStay(es: seq<Event>, e: Event, d: nat)
    requires Valid(START, es) && Enabled(Exec(START, es), e) && Is(Exec(START, es), d, Serving)
    ensures var s := Exec(START, es);
            && s.socket == Some(d) && s.pidFile == Some(d)
            && Step(s, e).socket == Some(d) && Step(s, e).pidFile == Some(d)
  {
    var s := Exec(START, es);
    RunKeeps(START, es);
    assert Fits(s, d) && Reachable(s, d);
    Takers(s, e);
  }

  /** Before it serves, only a daemon itself takes its socket away, and only if its PID file failed. */
  lemma OnlyItselfWithdraws(es: seq<Event>, e: Event, d: nat)
    requires Valid(START, es) && Enabled(Exec(START, es), e) && Reachable(Exec(START, es), d)
    ensures Step(Exec(START, es), e).socket == Some(d) || e == RemoveOwnSocket(d)
  {
    var s := Exec(START, es);
    RunKeeps(START, es);
    assert Fits(s, d);
    Takers(s, e);
  }

  /** No daemon binds late: one that has not bound yet is the child of the proxy that holds the lock. */
  lemma NoLateBind(es: seq<Event>, d: nat)
    requires Valid(START, es) && Enabled(Exec(START, es), Bind(d))
    ensures var s := Exec(START, es);
            s.holder.ByProxy? && s.holder.stage == Waiting(d) && forall other :: Enabled(s, Bind(other)) ==> other == d
  {
    var s := Exec(START, es);
    RunKeeps(START, es);
    assert Fits(s, d);
    forall other | Enabled(s, Bind(other)) ensures other == d { assert Fits(s, other); }
  }

  /**
   A daemon that leaves without the lock has its socket in place while its service shuts down: until
   it has died nobody takes its paths, so no other daemon starts beside it.
   */
  lemma UnlockedExitIsWaitedFor(es: seq<Event>, e: Event, d: nat)
    requires Valid(START, es) && Enabled(Exec(START, es), e)
    requires Is(Exec(START, es), d, Finishing) && Exec(START, es).socket == Some(d)
    ensures var s := Exec(START, es);
            && s.pidFile == Some(d)
            && Step(s, e).socket == Some(d) && Step(s, e).pidFile == Some(d)
            && (forall other :: !Reachable(s, other) && !Reachable(Step(s, e), other))
  {
    var s := Exec(START, es);
    RunKeeps(START, es);
    StepKeeps(s, e);
    assert Fits(s, d);
    Takers(s, e);
    forall other ensures !Reachable(s, other) { assert other in s.daemons ==> Fits(s, other); }
    forall other ensures !Reachable(Step(s, e), other) { assert other in Step(s, e).daemons ==> Fits(Step(s, e), other); }
  }

  /** A daemon that leaves under the lock has taken both of its paths away when it gives the lock back. */
  lemma CleanExitLeavesNoPaths(es: seq<Event>, d: nat)
    requires Valid(START, es) && Enabled(Exec(START, es), Unlock(d))
    ensures var s := Exec(START, es);
            s.socket != Some(d) && s.pidFile != Some(d) && Step(s, Unlock(d)).holder == Free
  {
    RunKeeps(START, es);
    assert Fits(Exec(START, es), d);
  }

  // ----- The way on is never blocked

  ghost predicate Leads(s: State, es: seq<Event>, s': State) {
    Valid(s, es) && Exec(s, es) == s'
  }

  lemma Then(s: State, e: Event, es: seq<Event>, s': State)
    requires Enabled(s, e) && Leads(Step(s, e), es, s')
    ensures Leads(s, [e] + es, s')
  {
    assert ([e] + es)[1..] == es;
  }

  /** The daemon dies, by itself or by its spawner's guard. */
  predicate Dies(s: State, e: Event, d: nat) {
    e == Die(d) || (e.Kill? && s.holder.ByProxy? && s.holder.stage == Waiting(d))
  }

  /** At the end of the run the daemon has locked its PID file, and has not died since. */
  predicate HasPidLock(s: State, es: seq<Event>, d: nat, had: bool)
    requires Valid(s, es)
    decreases |es|
  {
    if es == [] then had
    else HasPidLock(Step(s, es[0]), es[1..], d, es[0] == WritePid(d, true) || (had && !Dies(s, es[0], d)))
  }

  /** At the end of the run the daemon has bound a free path, and has neither left nor died since. */
  predicate HasBound(s: State, es: seq<Event>, d: nat, had: bool)
    requires Valid(s, es)
    decreases |es|
  {
    if es == [] then had
    else
      HasBound(Step(s, es[0]), es[1..], d,
               || (es[0] == Bind(d) && s.socket.None?)
               || (had && !Dies(s, es[0], d) && es[0] != Commit(d) && es[0] != CommitUnlocked(d)))
  }

  /** Over all runs: a daemon keeps the lock on its PID file till it dies, and listens till it leaves or dies. */
  lemma {:induction false} HoldsTillItEnds(s: State, es: seq<Event>, d: nat)
    requires Inv(s) && Valid(s, es)
    ensures HoldsPid(Exec(s, es), d) <==> HasPidLock(s, es, d, HoldsPid(s, d))
    ensures Listens(Exec(s, es), d) <==> HasBound(s, es, d, Listens(s, d))
    decreases |es|
  {
    if es != [] {
      StepKeeps(s, es[0]);
      StepHolds(s, es[0], d);
      HoldsTillItEnds(Step(s, es[0]), es[1..], d);
    }
  }

  predicate PidLockMoves(s: State, e: Event, d: nat)
    requires Enabled(s, e)
  {
    HoldsPid(Step(s, e), d) <==> e == WritePid(d, true) || (HoldsPid(s, d) && !Dies(s, e, d))
  }

  predicate ListenMoves(s: State, e: Event, d: nat)
    requires Enabled(s, e)
  {
    Listens(Step(s, e), d) <==>
      || (e == Bind(d) && s.socket.None?)
      || (Listens(s, d) && !Dies(s, e, d) && e != Commit(d) && e != CommitUnlocked(d))
  }

  lemma ProxyStepHolds(s: State, e: Event, d: nat)
    requires LockFits(s) && Enabled(s, e) && OfProxy(e)
    ensures PidLockMoves(s, e, d) && ListenMoves(s, e, d)
  {
  }

  lemma PidLockStep(s: State, e: Event, d: nat)
    requires d in s.daemons ==> Fits(s, d)
    requires Enabled(s, e) && !OfProxy(e)
    ensures PidLockMoves(s, e, d)
  {
  }

  lemma ListenStep(s: State, e: Event, d: nat)
    requires d in s.daemons ==> Fits(s, d)
    requires Enabled(s, e) && !OfProxy(e)
    ensures ListenMoves(s, e, d)
  {
  }

  lemma StepHolds(s: State, e: Event, d: nat)
    requires Inv(s) && Enabled(s, e)
    ensures PidLockMoves(s, e, d) && ListenMoves(s, e, d)
  {
    if OfProxy(e) {
      ProxyStepHolds(s, e, d);
    } else {
      PidLockStep(s, e, d);
      ListenStep(s, e, d);
    }
  }

  /**
   A proxy that was refused gives up exactly if the daemon that the PID file names is alive with its
   lock on it; a file that a dead daemon has left does not stop it.
   */
  lemma GivesUpIffAlive(es: seq<Event>, p: nat)
    requires Valid(START, es) && Enabled(Exec(START, es), PidCheck(p))
    ensures var s := Exec(START, es);
            var s' := Step(s, PidCheck(p));
            && (s'.holder == Free <==> s.pidFile.Some? && HasPidLock(START, es, s.pidFile.value, false))
            && (s'.holder != Free ==> s'.holder == ByProxy(p, Stale))
            && s'.daemons == s.daemons && s'.socket == s.socket && s'.pidFile == s.pidFile
  {
    var s := Exec(START, es);
    if s.pidFile.Some? { HoldsTillItEnds(START, es, s.pidFile.value); }
  }

  predicate NobodyIsAlive(s: State) {
    s.holder.Free? && forall d :: d in s.daemons ==> !Listens(s, d) && !HoldsPid(s, d)
  }

  lemma GetsPastTheDead(s: State, p: nat, es: seq<Event>, s': State)
    requires NobodyIsAlive(s)
    requires Leads(s.(holder := ByProxy(p, Clear), socket := None), es, s')
    ensures exists run :: Leads(s, run + es, s') && forall e :: e in run ==> OfProxy(e) && ProxyOf(e) == p
  {
    var stale, rest := s.(holder := ByProxy(p, Stale)), [RemoveStale(p)] + es;
    Then(stale, RemoveStale(p), es, s');
    if s.socket.None? {
      NothingThere(s, p, rest, s');
      assert [Lock(p), NotFound(p)] + rest == [Lock(p), NotFound(p), RemoveStale(p)] + es;
    } else {
      DeadOneThere(s, p, rest, s');
      assert [Lock(p), Refuse(p), PidCheck(p)] + rest == [Lock(p), Refuse(p), PidCheck(p), RemoveStale(p)] + es;
    }
  }

  lemma NothingThere(s: State, p: nat, es: seq<Event>, s': State)
    requires NobodyIsAlive(s) && s.socket.None? && Leads(s.(holder := ByProxy(p, Stale)), es, s')
    ensures Leads(s, [Lock(p), NotFound(p)] + es, s')
  {
    Then(s.(holder := ByProxy(p, Locked)), NotFound(p), es, s');
    Then(s, Lock(p), [NotFound(p)] + es, s');
    assert [Lock(p)] + ([NotFound(p)] + es) == [Lock(p), NotFound(p)] + es;
  }

  lemma DeadOneThere(s: State, p: nat, es: seq<Event>, s': State)
    requires NobodyIsAlive(s) && s.socket.Some? && Leads(s.(holder := ByProxy(p, Stale)), es, s')
    ensures Leads(s, [Lock(p), Refuse(p), PidCheck(p)] + es, s')
  {
    Then(s.(holder := ByProxy(p, Refused)), PidCheck(p), es, s');
    Then(s.(holder := ByProxy(p, Locked)), Refuse(p), [PidCheck(p)] + es, s');
    Then(s, Lock(p), [Refuse(p)] + ([PidCheck(p)] + es), s');
    assert [Lock(p)] + ([Refuse(p)] + ([PidCheck(p)] + es)) == [Lock(p), Refuse(p), PidCheck(p)] + es;
  }

  function ProxyOf(e: Event): nat
    requires OfProxy(e)
  {
    e.p
  }

  /** A step of the proxy `p` or of its child. */
  predicate StepOf(e: Event, p: nat, child: nat) {
    if OfProxy(e) then ProxyOf(e) == p else e.d == child
  }

  function WithChild(s: State, p: nat, child: nat, d: Daemon, socket: Option<nat>, pidFile: Option<nat>): State {
    State(s.daemons[child := d], ByProxy(p, Waiting(child)), socket, pidFile)
  }

  lemma ChildBinds(s: State, p: nat, child: nat, es: seq<Event>, s': State)
    requires Leads(WithChild(s, p, child, Daemon(Bound, None), Some(child), s.pidFile), es, s')
    ensures Leads(WithChild(s, p, child, Daemon(Starting, None), None, s.pidFile), [Bind(child)] + es, s')
  {
    var s0 := WithChild(s, p, child, Daemon(Starting, None), None, s.pidFile);
    assert Step(s0, Bind(child)).daemons == s.daemons[child := Daemon(Bound, None)];
    Then(s0, Bind(child), es, s');
  }

  lemma ChildStats(s: State, p: nat, child: nat, es: seq<Event>, s': State)
    requires Leads(WithChild(s, p, child, Daemon(Known, Some(child)), Some(child), s.pidFile), es, s')
    ensures Leads(WithChild(s, p, child, Daemon(Bound, None), Some(child), s.pidFile), [Stat(child)] + es, s')
  {
    var s0 := WithChild(s, p, child, Daemon(Bound, None), Some(child), s.pidFile);
    assert Step(s0, Stat(child)).daemons == s.daemons[child := Daemon(Known, Some(child))];
    Then(s0, Stat(child), es, s');
  }

  lemma ChildLocksPid(s: State, p: nat, child: nat, es: seq<Event>, s': State)
    requires Leads(WithChild(s, p, child, Daemon(Serving, Some(child)), Some(child), Some(child)), es, s')
    ensures Leads(WithChild(s, p, child, Daemon(Known, Some(child)), Some(child), s.pidFile), [WritePid(child, true)] + es, s')
  {
    var s0 := WithChild(s, p, child, Daemon(Known, Some(child)), Some(child), s.pidFile);
    assert Step(s0, WritePid(child, true)).daemons == s.daemons[child := Daemon(Serving, Some(child))];
    Then(s0, WritePid(child, true), es, s');
  }

  lemma ChildAccepts(s: State, p: nat, child: nat) returns (s': State)
    ensures Leads(WithChild(s, p, child, Daemon(Serving, Some(child)), Some(child), Some(child)), [Accepted(p)] + [], s')
    ensures Is(s', child, Serving) && s'.holder == Free && s'.socket == Some(child) && s'.pidFile == Some(child)
  {
    var last := WithChild(s, p, child, Daemon(Serving, Some(child)), Some(child), Some(child));
    s' := Step(last, Accepted(p));
    Then(last, Accepted(p), [], s');
  }

  /** With the path cleared, a child that a proxy spawns comes to serve, and the proxy to connect. */
  lemma ChildServes(s: State, p: nat, child: nat) returns (es: seq<Event>, s': State)
    requires s.holder == ByProxy(p, Clear) && s.socket.None? && child !in s.daemons
    ensures Leads(s, es, s') && Is(s', child, Serving) && s'.holder == Free
    ensures s'.socket == Some(child) && s'.pidFile == Some(child) && forall e :: e in es ==> StepOf(e, p, child)
  {
    s' := ChildAccepts(s, p, child);
    ChildLocksPid(s, p, child, [Accepted(p)] + [], s');
    ChildStats(s, p, child, [WritePid(child, true)] + ([Accepted(p)] + []), s');
    ChildBinds(s, p, child, [Stat(child)] + ([WritePid(child, true)] + ([Accepted(p)] + [])), s');
    ChildIsSpawned(s, p, child, [Bind(child)] + ([Stat(child)] + ([WritePid(child, true)] + ([Accepted(p)] + []))), s');
    es := ChildRun(p, child);
    ChildRunIsOf(p, child);
  }

  function ChildRun(p: nat, child: nat): seq<Event> {
    [Spawn(p, child)] + ([Bind(child)] + ([Stat(child)] + ([WritePid(child, true)] + ([Accepted(p)] + []))))
  }

  lemma ChildRunIsOf(p: nat, child: nat)
    ensures forall e :: e in ChildRun(p, child) ==> StepOf(e, p, child)
  {
    assert ChildRun(p, child) == [Spawn(p, child), Bind(child), Stat(child), WritePid(child, true), Accepted(p)];
  }

  lemma ChildIsSpawned(s: State, p: nat, child: nat, es: seq<Event>, s': State)
    requires s.holder == ByProxy(p, Clear) && s.socket.None? && child !in s.daemons
    requires Leads(WithChild(s, p, child, Daemon(Starting, None), None, s.pidFile), es, s')
    ensures Leads(s, [Spawn(p, child)] + es, s')
  {
    assert Step(s, Spawn(p, child)) == WithChild(s, p, child, Daemon(Starting, None), None, s.pidFile);
    Then(s, Spawn(p, child), es, s');
  }

  /**
   Whatever dead daemons have left behind: when none is alive and the lock is free, every proxy can get
   a new daemon, by steps of its own and of its child alone.
   */
  lemma NewDaemonCanServe(s: State, p: nat, child: nat) returns (es: seq<Event>, s': State)
    requires NobodyIsAlive(s) && child !in s.daemons
    ensures Leads(s, es, s') && Is(s', child, Serving) && Reachable(s', child) && s'.holder == Free
    ensures s'.socket == Some(child) && s'.pidFile == Some(child) && forall e :: e in es ==> StepOf(e, p, child)
  {
    var rest: seq<Event>;
    rest, s' := ChildServes(s.(holder := ByProxy(p, Clear), socket := None), p, child);
    GetsPastTheDead(s, p, rest, s');
    var run :| Leads(s, run + rest, s') && forall e :: e in run ==> OfProxy(e) && ProxyOf(e) == p;
    es := run + rest;
  }

  /** How many steps of its own the holder of the lock needs to give it back. */
  function StepsToFree(s: State): nat {
    match s.holder
    case Free => 0
    case ByProxy(_, Waiting(_)) => 2
    case ByProxy(_, _) => 1
    case ByDaemon(d) =>
      if d !in s.daemons then 0
      else
        match s.daemons[d].stage
        case Closed => 5
        case PidRead(_) => 4
        case PidDone => 3
        case SocketRead(_) => 2
        case _ => 1
  }

  /** The next step of the holder on its way to give the lock back. */
  function Release1(s: State): Event
    requires !s.holder.Free? && (s.holder.ByDaemon? ==> s.holder.daemon in s.daemons)
  {
    match s.holder
    case ByProxy(p, Waiting(_)) => Kill(p)
    case ByProxy(p, Killed) => Release(p)
    case ByProxy(p, _) => GiveUp(p)
    case ByDaemon(d) =>
      match s.daemons[d].stage
      case Closed => ReadPid(d)
      case PidRead(_) => RemovePid(d)
      case PidDone => ReadSocket(d)
      case SocketRead(_) => RemoveSocket(d)
      case Gone => Unlock(d)
      case _ => CancelExit(d)
  }

  lemma ReleaseStep(s: State)
    requires Inv(s) && !s.holder.Free?
    ensures s.holder.ByDaemon? ==> s.holder.daemon in s.daemons
    ensures Enabled(s, Release1(s)) && StepsToFree(Step(s, Release1(s))) < StepsToFree(s)
  {
  }

  /** From every reachable state, whoever holds the spawn lock can give it back by steps of its own. */
  lemma {:induction false} LockCanBeFreed(s: State) returns (es: seq<Event>, s': State)
    requires Inv(s)
    ensures Leads(s, es, s') && s'.holder.Free?
    decreases StepsToFree(s)
  {
    if s.holder.Free? {
      es, s' := [], s;
    } else {
      var e := Release1(s);
      ReleaseStep(s);
      StepKeeps(s, e);
      es, s' := LockCanBeFreed(Step(s, e));
      Then(s, e, es, s');
      es := [e] + es;
    }
  }

  /** A proxy that has connected gives the lock back at once. */
  lemma ConnectedGivesLockBack(s: State, e: Event)
    requires Enabled(s, e) && (e.ConnectOk? || e.Accepted?)
    ensures Step(s, e) == s.(holder := Free)
  {
  }

  /** A daemon that cannot write its PID file takes its socket away again, by steps of its own. */
  lemma FailedPidFileWithdraws(es: seq<Event>, d: nat)
    requires Valid(START, es) && Enabled(Exec(START, es), WritePid(d, false))
    ensures var s1 := Step(Exec(START, es), WritePid(d, false));
            && Enabled(s1, CheckOwnSocket(d))
            && Enabled(Step(s1, CheckOwnSocket(d)), RemoveOwnSocket(d))
            && var s3 := Step(Step(s1, CheckOwnSocket(d)), RemoveOwnSocket(d));
               s3.socket.None? && s3.pidFile == Exec(START, es).pidFile && !Reachable(s3, d)
  {
    RunKeeps(START, es);
    WithdrawsItself(Exec(START, es), d);
  }

  lemma WithdrawsItself(s: State, d: nat)
    requires Is(s, d, Known) && Fits(s, d)
    ensures var s1 := Step(s, WritePid(d, false));
            && Enabled(s1, CheckOwnSocket(d))
            && Enabled(Step(s1, CheckOwnSocket(d)), RemoveOwnSocket(d))
            && var s3 := Step(Step(s1, CheckOwnSocket(d)), RemoveOwnSocket(d));
               s3.socket.None? && s3.pidFile == s.pidFile && !Reachable(s3, d)
  {
  }

  /** And a guard that gives up has killed its child. */
  lemma KilledIsDead(es: seq<Event>, p: nat)
    requires Valid(START, es) && Enabled(Exec(START, es), Kill(p))
    ensures var s := Exec(START, es); Is(Step(s, Kill(p)), s.holder.stage.child, Dead)
  {
    RunKeeps(START, es);
  }

  // ----- The assumption is needed

  const NEW_BORN := State(map[0 := Daemon(Bound, None)], ByProxy(2, Locked), Some(0), None)

  /** A second proxy can hold the lock when a daemon has bound its socket and not yet locked its PID file. */
  lemma BoundBeforePidLock() returns (es: seq<Event>)
    ensures Leads(START, es, NEW_BORN)
  {
    var s1 := START.(holder := ByProxy(1, Locked));
    var s2 := START.(holder := ByProxy(1, Stale));
    var s3 := START.(holder := ByProxy(1, Clear));
    var s4 := State(map[0 := Daemon(Starting, None)], ByProxy(1, Waiting(0)), None, None);
    var s5 := State(map[0 := Daemon(Bound, None)], ByProxy(1, Waiting(0)), Some(0), None);
    Then(s5.(holder := Free), Lock(2), [], NEW_BORN);
    es := [Lock(2)] + [];
    Then(s5, Accepted(1), es, NEW_BORN);
    es := [Accepted(1)] + es;
    assert Step(s4, Bind(0)).daemons == s5.daemons;
    Then(s4, Bind(0), es, NEW_BORN);
    es := [Bind(0)] + es;
    Then(s3, Spawn(1, 0), es, NEW_BORN);
    es := [Spawn(1, 0)] + es;
    Then(s2, RemoveStale(1), es, NEW_BORN);
    es := [RemoveStale(1)] + es;
    Then(s1, NotFound(1), es, NEW_BORN);
    es := [NotFound(1)] + es;
    Then(START, Lock(1), es, NEW_BORN);
    es := [Lock(1)] + es;
  }

  /** If its full backlog refused that proxy, the proxy would take it for dead and unlink its socket. */
  lemma EarlyRefusalUnlinks()
    ensures var refused := NEW_BORN.(holder := ByProxy(2, Refused));
            && Enabled(refused, PidCheck(2)) && Enabled(Step(refused, PidCheck(2)), RemoveStale(2))
            && var s := Step(Step(refused, PidCheck(2)), RemoveStale(2));
               Reachable(s, 0) && s.socket.None?
  {
    var refused := NEW_BORN.(holder := ByProxy(2, Refused));
    assert Step(refused, PidCheck(2)).holder == ByProxy(2, Stale);
  }

  // ----- The guard of a spawned child

  datatype Act = KillChild | ReleaseLock

  /** Dropping the guard kills the child and only then releases the lock. */
  class SpawnGuard {
    var child: Option<nat>
    var locked: bool
    var did: seq<Act>

    ghost predicate Armed()
      reads this
    {
      child.Some? && locked && did == []
    }

    constructor (child: nat)
      ensures Armed()
    {
      this.child, locked, did := Some(child), true, [];
    }

    method Disarm()
      requires Armed()
      modifies this
      ensures !locked && child.None? && did == [ReleaseLock]
    {
      child := None;
      Unlock();
    }

    method Unlock()
      modifies this`locked, this`did
      ensures !locked && did == old(did) + if old(locked) then [ReleaseLock] else []
    {
      if locked {
        locked := false;
        did := did + [ReleaseLock];
      }
    }

    method Drop()
      modifies this
      ensures !locked && child.None?
      ensures did == old(did) + (if old(child).Some? then [KillChild] else []) + if old(locked) then [ReleaseLock] else []
    {
      if child.Some? {
        did := did + [KillChild];
        child := None;
      }
      Unlock();
    }
  }

  /** What one turn of the wait finds: whether the socket accepts, whether the child has exited, and the time. */
  datatype Poll = Poll(accepts: bool, exited: bool, now: nat)

  datatype Waited = Connected | ExitedEarly | TimedOut

  predicate Ends(poll: Poll, deadline: nat) {
    poll.accepts || poll.exited || poll.now >= deadline
  }

  /**
   `wait_for_accept`: the first turn that ends the wait decides, a connection before an exit and
   an exit before the deadline; whatever ends it, the lock is released, and the child lives on
   only if it accepted. `polls` is what the turns find, up to the deadline.
   */
  method WaitForAccept(guard: SpawnGuard, polls: seq<Poll>, deadline: nat) returns (outcome: Waited, turns: nat)
    requires guard.Armed()
    requires polls != [] && polls[|polls| - 1].now >= deadline
    modifies guard
    ensures 0 < turns <= |polls| && forall i :: 0 <= i < turns - 1 ==> !Ends(polls[i], deadline)
    ensures outcome == Connected <==> polls[turns - 1].accepts
    ensures outcome == ExitedEarly <==> !polls[turns - 1].accepts && polls[turns - 1].exited
    ensures Ends(polls[turns - 1], deadline)
    ensures guard.did == if outcome == Connected then [ReleaseLock] else [KillChild, ReleaseLock]
  {
    turns := 0;
    while true
      invariant 0 <= turns < |polls|
      invariant forall i :: 0 <= i < turns ==> !Ends(polls[i], deadline)
      invariant guard.Armed()
      decreases |polls| - turns
    {
      var poll := polls[turns];
      turns := turns + 1;
      if poll.accepts {
        guard.Disarm();
        return Connected, turns;
      }
      if poll.exited || poll.now >= deadline {
        guard.Drop();
        return if poll.exited then ExitedEarly else TimedOut, turns;
      }
    }
  }
}
