/**
 Stores, supersedes and forgets interleaved, each of them abandoned at any of its awaits, the
 whole process crashing anywhere, and recovery crashing too (crates/core/src/pipeline/write.rs,
 service/forget.rs, service.rs). A step is one call to one of the two stores. Recovery and audit
 have the stores to themselves.
 */
module JournalRuns {
  import opened Wrappers
  import opened Journal

  /** The last call that a running operation has made. */
  datatype Stage = Prepared | Journaled | VecDone | Marked | RowDone

  datatype Live = Live(op: Op, stage: Stage)

  datatype Phase =
    | Down
    | Recovering(todo: seq<nat>, vecGone: bool, rowGone: bool)
    | Up

  /** Where a memory lives, and the operation that writes it: ids are never used twice. */
  datatype Home = Home(ns: string, writer: nat)

  datatype State = State(
    db: Db,
    live: map<nat, Live>,
    phase: Phase,
    // history
    ops: set<nat>,            // operations ever started
    home: map<nat, Home>,     // memories ever written, or begun to be
    torn: set<nat>,           // whose operation stopped between its vector call and the mark
    stored: set<nat>,         // whose write has committed
    asked: set<nat>,          // that a forget has been asked for
    gone: set<nat>,           // that a forget has completed for
    commits: seq<Op>)         // the writes that have committed, in order

  datatype Event =
    | BeginWrite(o: nat, op: Op)
    | BeginForget(o: nat, id: nat)
    | Advance(o: nat)
    | Abandon(o: nat)
    | Crash
    | Restart(listed: seq<nat>)
    | Recover
    | Ready
    | Audit(ns: string, limit: nat)

  predicate Writes(op: Op) {
    op.kind != Forget
  }

  // ----- Steps

  ghost predicate Enabled(s: State, e: Event) {
    match e
    case BeginWrite(o, op) => s.phase.Up? && o !in s.ops && Writes(op) && op.id !in s.home
    case BeginForget(o, id) => s.phase.Up? && o !in s.ops && id in s.db.rows
    case Advance(o) => s.phase.Up? && o in s.live
    case Abandon(o) => s.phase.Up? && o in s.live
    case Crash => true
    case Restart(listed) => s.phase.Down? && Lists(listed, s.db.pending.Keys)
    case Recover => s.phase.Recovering? && s.phase.todo != [] && s.phase.todo[0] in s.db.pending
    case Ready => s.phase.Recovering? && s.phase.todo == []
    case Audit(_, _) => s.phase.Up? && s.live == map[]
  }

  function NextStage(stage: Stage): Stage {
    match stage
    case Prepared => Journaled
    case Journaled => VecDone
    case VecDone => Marked
    case Marked => RowDone
    case RowDone => RowDone
  }

  function Moves(s: State, o: nat, db: Db): State
    requires o in s.live
  {
    s.(db := db, live := s.live[o := s.live[o].(stage := NextStage(s.live[o].stage))])
  }

  function Advanced(s: State, o: nat): State
    requires o in s.live
  {
    var Live(op, stage) := s.live[o];
    match stage
    case Prepared => Moves(s, o, InsertPending(s.db, o, op))
    case Journaled => Moves(s, o, if Writes(op) then Upsert(s.db, op.ns, op.id) else DeleteVec(s.db, op.ns, op.id))
    case VecDone => Moves(s, o, MarkWritten(s.db, o))
    case Marked =>
      if Writes(op) then s.(db := CommitWrite(s.db, o, op), live := s.live - {o}, stored := s.stored + {op.id},
                              commits := s.commits + [op])
      else Moves(s, o, DeleteRow(s.db, op.id))
    case RowDone => s.(db := Complete(s.db, o), live := s.live - {o}, gone := s.gone + {op.id})
  }

  function Torn(live: map<nat, Live>): set<nat> {
    set o | o in live && live[o].stage.VecDone? :: live[o].op.id
  }

  /** One call of `recover_on_startup`. */
  function RecoverStep(s: State): State
    requires s.phase.Recovering? && s.phase.todo != [] && s.phase.todo[0] in s.db.pending
  {
    var Recovering(todo, vecGone, rowGone) := s.phase;
    var o := todo[0];
    var Pending(op, written) := s.db.pending[o];
    if o in s.db.completed || !written || rowGone then
      s.(db := ClearPending(s.db, o), phase := Recovering(todo[1..], false, false))
    else if Writes(op) && !vecGone then s.(db := DeleteVec(s.db, op.ns, op.id), phase := Recovering(todo, true, false))
    else s.(db := DeleteRow(s.db, op.id), phase := Recovering(todo, true, true))
  }

  function Step(s: State, e: Event): State
    requires Enabled(s, e)
  {
    match e
    case BeginWrite(o, op) =>
      s.(ops := s.ops + {o}, live := s.live[o := Live(op, Prepared)], home := s.home[op.id := Home(op.ns, o)])
    case BeginForget(o, id) =>
      s.(ops := s.ops + {o}, live := s.live[o := Live(Op(Forget, id, s.db.rows[id].ns, {}), Prepared)],
         asked := s.asked + {id})
    case Advance(o) => Advanced(s, o)
    case Abandon(o) =>
      s.(live := s.live - {o}, torn := s.torn + if s.live[o].stage.VecDone? then {s.live[o].op.id} else {})
    case Crash => s.(phase := Down, live := map[], torn := s.torn + Torn(s.live))
    case Restart(listed) => s.(phase := Recovering(listed, false, false))
    case Recover => RecoverStep(s)
    case Ready => s.(phase := Up)
    case Audit(ns, limit) =>
      if |VecIds(s.db.vecs, ns) - RowIds(s.db.rows, ns)| <= limit then s.(db := s.db.(vecs := Audited(s.db, ns)))
      else s
  }

  ghost predicate Valid(s: State, es: seq<Event>)
    decreases |es|
  {
    es != [] ==> Enabled(s, es[0]) && Valid(Step(s, es[0]), es[1..])
  }

  ghost function Exec(s: State, es: seq<Event>): State
    requires Valid(s, es)
    decreases |es|
  {
    if es == [] then s else Exec(Step(s, es[0]), es[1..])
  }

  /**
   At rest: both stores hold the same memories. The journal may still list operations that it
   also records as completed, which builds before the single transaction could leave behind.
   */
  ghost predicate AtRest(s: State) {
    && s.phase.Down? && s.live == map[] && s.torn == s.asked == s.gone == {} && s.commits == []
    && s.stored == s.db.rows.Keys == s.home.Keys
    && s.db.pending.Keys <= s.db.completed <= s.ops
    && (forall id :: id in s.db.rows ==> s.db.rows[id] == Row(s.home[id].ns, None) && s.home[id].writer in s.ops)
    && (forall ns, id :: (ns, id) in s.db.vecs <==> id in s.db.rows && s.db.rows[id].ns == ns)
  }

  // ----- The invariant

  predicate HasVec(s: State, id: nat) {
    id in s.home && (s.home[id].ns, id) in s.db.vecs
  }

  /** An operation that the journal still lists, and does not record as completed. */
  predicate Open(s: State, o: nat) {
    o in s.db.pending && o !in s.db.completed
  }

  predicate LiveAt(s: State, o: nat, stage: Stage) {
    o in s.live && s.live[o].stage == stage
  }

  /** A forget that has deleted the vector of `id`, and not completed. */
  predicate Cuts(s: State, o: nat, id: nat) {
    && Open(s, o) && s.db.pending[o].op.kind == Forget && s.db.pending[o].op.id == id
    && (s.db.pending[o].written || LiveAt(s, o, VecDone))
  }

  /** The write of `id` has put its vector, and not committed. */
  predicate Adds(s: State, o: nat, id: nat) {
    && Open(s, o) && Writes(s.db.pending[o].op) && s.db.pending[o].op.id == id
    && (s.db.pending[o].written || LiveAt(s, o, VecDone))
  }

  /** What holds of a running operation. */
  predicate LiveFits(s: State, o: nat)
    requires o in s.live
  {
    var Live(op, stage) := s.live[o];
    && o in s.ops && o !in s.db.completed
    && (if stage.Prepared? then o !in s.db.pending
        else o in s.db.pending && s.db.pending[o] == Pending(op, stage.Marked? || stage.RowDone?))
    && OpFits(s, o, op)
    && (Writes(op) && (stage.VecDone? || stage.Marked?) ==> HasVec(s, op.id))
    && (stage.RowDone? ==> !Writes(op) && op.id !in s.db.rows)
  }

  /** What holds of an operation that is running or journaled, and not completed. */
  predicate OpFits(s: State, o: nat, op: Op) {
    && op.id in s.home && op.ns == s.home[op.id].ns
    && (if Writes(op) then s.home[op.id].writer == o && op.id !in s.stored else op.id in s.asked)
  }

  predicate PendingFits(s: State, o: nat)
    requires o in s.db.pending
  {
    && o in s.ops
    && (o !in s.db.completed ==> OpFits(s, o, s.db.pending[o].op))
    && (Cuts(s, o, s.db.pending[o].op.id) ==> !HasVec(s, s.db.pending[o].op.id))
  }

  ghost predicate IdFits(s: State, id: nat) {
    && (id in s.home ==> s.home[id].writer in s.ops)
    && (id in s.db.rows ==>
          && id in s.stored && id in s.home && s.db.rows[id].ns == s.home[id].ns
          && (s.db.rows[id].retiredBy.Some? ==> s.db.rows[id].retiredBy.value in s.stored))
    && (id in s.stored ==> id in s.home && (id in s.db.rows || id in s.asked))
    && (id in s.asked ==> id in s.stored)
    && (id in s.gone ==> id in s.asked && id !in s.db.rows && !HasVec(s, id))
    && (forall ns :: (ns, id) in s.db.vecs ==> id in s.home && ns == s.home[id].ns)
    && (id !in s.torn && id in s.db.rows && !HasVec(s, id) ==> exists o :: Cuts(s, o, id))
    && (id !in s.torn && HasVec(s, id) && id !in s.db.rows ==> Adds(s, s.home[id].writer, id))
  }

  ghost predicate PhaseFits(s: State) {
    && s.db.completed <= s.ops
    && (!s.phase.Up? ==> s.live == map[])
    && (s.phase.Recovering? ==>
          var Recovering(todo, vecGone, rowGone) := s.phase;
          && Lists(todo, s.db.pending.Keys)
          && (vecGone || rowGone ==>
                todo != [] && Open(s, todo[0]) && s.db.pending[todo[0]].written
                && !HasVec(s, s.db.pending[todo[0]].op.id))
          && (rowGone ==> s.db.pending[todo[0]].op.id !in s.db.rows))
  }

  ghost predicate Inv(s: State) {
    && PhaseFits(s)
    && (forall o :: o in s.live ==> LiveFits(s, o))
    && (forall o :: o in s.db.pending ==> PendingFits(s, o))
    && (forall id :: IdFits(s, id))
  }

  lemma AtRestHasInv(s: State)
    requires AtRest(s)
    ensures Inv(s)
  {
    forall id ensures IdFits(s, id) {
      if id in s.db.rows { assert (s.home[id].ns, id) in s.db.vecs; }
    }
  }

  // ----- Every step keeps it

  lemma BeginKeeps(s: State, e: Event)
    requires Inv(s) && Enabled(s, e) && (e.BeginWrite? || e.BeginForget?)
    ensures Inv(Step(s, e))
  {
    var s' := Step(s, e);
    if e.BeginForget? { assert IdFits(s, e.id); }
    forall o | o in s'.live ensures LiveFits(s', o) {
      if o in s.live { assert LiveFits(s, o); assert IdFits(s, s.live[o].op.id); }
      if e.BeginWrite? { assert IdFits(s, e.op.id); }
      assert o in s.db.pending ==> PendingFits(s, o);
    }
    forall o | o in s'.db.pending ensures PendingFits(s', o) {
      assert PendingFits(s, o) && IdFits(s, s.db.pending[o].op.id);
    }
    forall id ensures IdFits(s', id) {
      assert IdFits(s, id);
      SameCuts(s, s', id);
    }
  }

  /** Nothing that the stores' agreement on `id` rests on has changed. */
  lemma SameCuts(s: State, s': State, id: nat)
    requires s'.db == s.db && forall o :: o in s.live ==> o in s'.live && s'.live[o] == s.live[o]
    requires forall o :: o in s'.live && o !in s.live ==> s'.live[o].stage.Prepared?
    ensures forall o :: Cuts(s, o, id) ==> Cuts(s', o, id)
    ensures forall o :: Adds(s, o, id) ==> Adds(s', o, id)
  {
  }

  lemma JournalKeeps(s: State, o: nat)
    requires Inv(s) && Enabled(s, Advance(o)) && s.live[o].stage.Prepared?
    ensures Inv(Advanced(s, o))
  {
    var s' := Advanced(s, o);
    assert LiveFits(s, o);
    forall p | p in s'.live ensures LiveFits(s', p) { assert LiveFits(s, p); }
    forall p | p in s'.db.pending ensures PendingFits(s', p) {
      assert p in s.db.pending ==> PendingFits(s, p);
    }
    forall id ensures IdFits(s', id) {
      assert IdFits(s, id);
      assert forall p :: Cuts(s, p, id) ==> Cuts(s', p, id);
      assert forall p :: Adds(s, p, id) ==> Adds(s', p, id);
    }
  }

  lemma PutKeeps(s: State, o: nat)
    requires Inv(s) && Enabled(s, Advance(o)) && s.live[o].stage.Journaled? && Writes(s.live[o].op)
    ensures Inv(Advanced(s, o))
  {
    var s' := Advanced(s, o);
    assert LiveFits(s, o);
    forall p | p in s'.live ensures LiveFits(s', p) { assert LiveFits(s, p); }
    forall p | p in s'.db.pending ensures PendingFits(s', p) {
      assert PendingFits(s, p) && IdFits(s, s.db.pending[p].op.id);
    }
    forall id ensures IdFits(s', id) {
      assert IdFits(s, id);
      assert forall p :: Cuts(s, p, id) ==> Cuts(s', p, id);
      assert forall p :: Adds(s, p, id) ==> Adds(s', p, id);
    }
  }

  lemma CutKeeps(s: State, o: nat)
    requires Inv(s) && Enabled(s, Advance(o)) && s.live[o].stage.Journaled? && !Writes(s.live[o].op)
    ensures Inv(Advanced(s, o))
  {
    var s' := Advanced(s, o);
    assert LiveFits(s, o);
    forall p | p in s'.live ensures LiveFits(s', p) { assert LiveFits(s, p) && IdFits(s, s.live[p].op.id); }
    forall p | p in s'.db.pending ensures PendingFits(s', p) { assert PendingFits(s, p); }
    assert Cuts(s', o, s.live[o].op.id);
    forall id ensures IdFits(s', id) {
      assert IdFits(s, id);
      assert forall p :: Cuts(s, p, id) ==> Cuts(s', p, id);
      assert forall p :: Adds(s, p, id) ==> Adds(s', p, id);
    }
  }

  lemma MarkKeeps(s: State, o: nat)
    requires Inv(s) && Enabled(s, Advance(o)) && s.live[o].stage.VecDone?
    ensures Inv(Advanced(s, o))
  {
    var s' := Advanced(s, o);
    assert LiveFits(s, o);
    forall p | p in s'.live ensures LiveFits(s', p) { assert LiveFits(s, p); }
    forall p | p in s'.db.pending ensures PendingFits(s', p) { assert PendingFits(s, p); }
    forall id ensures IdFits(s', id) {
      assert IdFits(s, id);
      assert forall p :: Cuts(s, p, id) ==> Cuts(s', p, id);
      assert forall p :: Adds(s, p, id) ==> Adds(s', p, id);
    }
  }

  lemma CommitKeeps(s: State, o: nat)
    requires Inv(s) && Enabled(s, Advance(o)) && s.live[o].stage.Marked? && Writes(s.live[o].op)
    ensures Inv(Advanced(s, o))
  {
    var s' := Advanced(s, o);
    var mine := s.live[o].op.id;
    assert LiveFits(s, o);
    forall p | p in s'.live ensures LiveFits(s', p) { assert LiveFits(s, p) && IdFits(s, s.live[p].op.id); }
    forall p | p in s'.db.pending ensures PendingFits(s', p) { assert PendingFits(s, p); }
    forall id ensures IdFits(s', id) {
      assert IdFits(s, id);
      assert forall p :: Cuts(s, p, id) ==> Cuts(s', p, id);
      assert forall p :: Adds(s, p, id) && p != o ==> Adds(s', p, id);
    }
  }

  lemma RowKeeps(s: State, o: nat)
    requires Inv(s) && Enabled(s, Advance(o)) && s.live[o].stage.Marked? && !Writes(s.live[o].op)
    ensures Inv(Advanced(s, o))
  {
    var s' := Advanced(s, o);
    assert LiveFits(s, o) && PendingFits(s, o);
    forall p | p in s'.live ensures LiveFits(s', p) { assert LiveFits(s, p); }
    forall p | p in s'.db.pending ensures PendingFits(s', p) { assert PendingFits(s, p); }
    forall id ensures IdFits(s', id) {
      assert IdFits(s, id);
      assert forall p :: Cuts(s, p, id) ==> Cuts(s', p, id);
      assert forall p :: Adds(s, p, id) ==> Adds(s', p, id);
      assert Cuts(s, o, s.live[o].op.id);
    }
  }

  lemma FinishKeeps(s: State, o: nat)
    requires Inv(s) && Enabled(s, Advance(o)) && s.live[o].stage.RowDone?
    ensures Inv(Advanced(s, o))
  {
    var s' := Advanced(s, o);
    assert LiveFits(s, o) && PendingFits(s, o);
    assert Cuts(s, o, s.live[o].op.id);
    forall p | p in s'.live ensures LiveFits(s', p) { assert LiveFits(s, p); }
    forall p | p in s'.db.pending ensures PendingFits(s', p) { assert PendingFits(s, p); }
    forall id ensures IdFits(s', id) {
      assert IdFits(s, id);
      assert forall p :: Cuts(s, p, id) && p != o ==> Cuts(s', p, id);
      assert forall p :: Adds(s, p, id) ==> Adds(s', p, id);
    }
  }

  lemma AbandonKeeps(s: State, o: nat)
    requires Inv(s) && Enabled(s, Abandon(o))
    ensures Inv(Step(s, Abandon(o)))
  {
    var s' := Step(s, Abandon(o));
    assert LiveFits(s, o);
    forall p | p in s'.live ensures LiveFits(s', p) { assert LiveFits(s, p); }
    forall p | p in s'.db.pending ensures PendingFits(s', p) { assert PendingFits(s, p); }
    forall id ensures IdFits(s', id) {
      assert IdFits(s, id);
      assert forall p :: Cuts(s, p, id) && id !in s'.torn ==> Cuts(s', p, id);
      assert forall p :: Adds(s, p, id) && id !in s'.torn ==> Adds(s', p, id);
    }
  }

  lemma CrashKeeps(s: State)
    requires Inv(s)
    ensures Inv(Step(s, Crash))
  {
    var s' := Step(s, Crash);
    forall p | p in s'.db.pending ensures PendingFits(s', p) { assert PendingFits(s, p); }
    forall id ensures IdFits(s', id) {
      assert IdFits(s, id);
      forall p | LiveAt(s, p, VecDone) ensures s.live[p].op.id in s'.torn { assert LiveFits(s, p); }
      forall p | Open(s, p) && LiveAt(s, p, VecDone) ensures s.db.pending[p].op.id in s'.torn { assert LiveFits(s, p); }
      assert forall p :: Cuts(s, p, id) && id !in s'.torn ==> Cuts(s', p, id);
      assert forall p :: Adds(s, p, id) && id !in s'.torn ==> Adds(s', p, id);
    }
  }

  lemma ClearKeepsId(s: State, id: nat)
    requires Inv(s) && Enabled(s, Recover) && RecoverStep(s).db.pending != s.db.pending
    ensures IdFits(RecoverStep(s), id)
  {
    var s', o := RecoverStep(s), s.phase.todo[0];
    assert PendingFits(s, o) && IdFits(s, id) && s'.db == ClearPending(s.db, o);
    assert forall p :: Cuts(s, p, id) && p != o ==> Cuts(s', p, id);
    assert forall p :: Adds(s, p, id) && p != o ==> Adds(s', p, id);
  }

  lemma ClearKeepsPending(s: State, p: nat)
    requires Inv(s) && Enabled(s, Recover) && RecoverStep(s).db.pending != s.db.pending && p in RecoverStep(s).db.pending
    ensures PendingFits(RecoverStep(s), p)
  {
    assert PendingFits(s, p) && RecoverStep(s).db == ClearPending(s.db, s.phase.todo[0]);
  }

  lemma ListsRest(todo: seq<nat>, keys: set<nat>)
    requires Lists(todo, keys) && todo != []
    ensures Lists(todo[1..], keys - {todo[0]})
  {
    assert todo == [todo[0]] + todo[1..];
  }

  lemma ClearKeepsPhase(s: State)
    requires PhaseFits(s) && Enabled(s, Recover) && RecoverStep(s).db.pending != s.db.pending
    ensures PhaseFits(RecoverStep(s)) && RecoverStep(s).live == map[]
  {
    var todo := s.phase.todo;
    ListsRest(todo, s.db.pending.Keys);
    assert RecoverStep(s).db == ClearPending(s.db, todo[0]);
    assert (s.db.pending - {todo[0]}).Keys == s.db.pending.Keys - {todo[0]};
  }

  lemma ClearKeeps(s: State)
    requires Inv(s) && Enabled(s, Recover) && RecoverStep(s).db.pending != s.db.pending
    ensures Inv(RecoverStep(s))
  {
    ClearKeepsPhase(s);
    forall p | p in RecoverStep(s).db.pending ensures PendingFits(RecoverStep(s), p) { ClearKeepsPending(s, p); }
    forall id ensures IdFits(RecoverStep(s), id) { ClearKeepsId(s, id); }
  }

  lemma UndoVecKeeps(s: State)
    requires Inv(s) && Enabled(s, Recover) && RecoverStep(s).db.vecs != s.db.vecs
    ensures Inv(RecoverStep(s))
  {
    var s', o := RecoverStep(s), s.phase.todo[0];
    var mine := s.db.pending[o].op;
    assert PendingFits(s, o) && IdFits(s, mine.id) && s'.db == DeleteVec(s.db, mine.ns, mine.id);
    forall p | p in s'.db.pending ensures PendingFits(s', p) { assert PendingFits(s, p); }
    forall id ensures IdFits(s', id) {
      assert IdFits(s, id);
      assert forall p :: Cuts(s, p, id) ==> Cuts(s', p, id);
      assert forall p :: Adds(s, p, id) ==> Adds(s', p, id);
    }
  }

  predicate UndoesRow(s: State) {
    && s.phase.Recovering? && s.phase.todo != [] && s.phase.todo[0] in s.db.pending
    && RecoverStep(s).db.pending == s.db.pending && RecoverStep(s).db.vecs == s.db.vecs
  }

  lemma UndoRowKeepsId(s: State, id: nat)
    requires Inv(s) && UndoesRow(s)
    ensures IdFits(RecoverStep(s), id)
  {
    var s', o := RecoverStep(s), s.phase.todo[0];
    assert PendingFits(s, o) && IdFits(s, s.db.pending[o].op.id) && IdFits(s, id);
    assert forall p :: Cuts(s, p, id) ==> Cuts(s', p, id);
    assert forall p :: Adds(s, p, id) ==> Adds(s', p, id);
  }

  lemma UndoRowKeepsPhase(s: State)
    requires Inv(s) && UndoesRow(s)
    ensures PhaseFits(RecoverStep(s)) && RecoverStep(s).live == map[]
  {
    var o := s.phase.todo[0];
    assert PendingFits(s, o) && IdFits(s, s.db.pending[o].op.id);
  }

  lemma UndoRowKeeps(s: State)
    requires Inv(s) && UndoesRow(s)
    ensures Inv(RecoverStep(s))
  {
    var s' := RecoverStep(s);
    UndoRowKeepsPhase(s);
    forall p | p in s'.db.pending ensures PendingFits(s', p) { assert PendingFits(s, p); }
    forall id ensures IdFits(s', id) { UndoRowKeepsId(s, id); }
  }

  lemma RecoverKeeps(s: State)
    requires Inv(s) && Enabled(s, Recover)
    ensures Inv(RecoverStep(s))
  {
    if RecoverStep(s).db.pending != s.db.pending { ClearKeeps(s); }
    else if RecoverStep(s).db.vecs != s.db.vecs { UndoVecKeeps(s); }
    else { UndoRowKeeps(s); }
  }

  lemma AuditKeeps(s: State, ns: string, limit: nat)
    requires Inv(s) && Enabled(s, Audit(ns, limit))
    ensures Inv(Step(s, Audit(ns, limit)))
  {
    var s' := Step(s, Audit(ns, limit));
    forall p | p in s'.db.pending ensures PendingFits(s', p) { assert PendingFits(s, p); }
    forall id ensures IdFits(s', id) {
      assert IdFits(s, id);
      assert forall p :: Cuts(s, p, id) ==> Cuts(s', p, id);
      assert forall p :: Adds(s, p, id) ==> Adds(s', p, id);
    }
  }

  lemma StepKeeps(s: State, e: Event)
    requires Inv(s) && Enabled(s, e)
    ensures Inv(Step(s, e))
  {
    match e
    case BeginWrite(_, _) => BeginKeeps(s, e);
    case BeginForget(_, _) => BeginKeeps(s, e);
    case Advance(o) => AdvanceKeeps(s, o);
    case Abandon(o) => AbandonKeeps(s, o);
    case Crash => CrashKeeps(s);
    case Recover => RecoverKeeps(s);
    case Audit(ns, limit) => AuditKeeps(s, ns, limit);
    case Restart(_) => PhaseKeeps(s, e);
    case Ready => PhaseKeeps(s, e);
  }

  lemma AdvanceKeeps(s: State, o: nat)
    requires Inv(s) && Enabled(s, Advance(o))
    ensures Inv(Advanced(s, o))
  {
    match s.live[o].stage
    case Prepared => JournalKeeps(s, o);
    case Journaled => if Writes(s.live[o].op) { PutKeeps(s, o); } else { CutKeeps(s, o); }
    case VecDone => MarkKeeps(s, o);
    case Marked => if Writes(s.live[o].op) { CommitKeeps(s, o); } else { RowKeeps(s, o); }
    case RowDone => FinishKeeps(s, o);
  }

  lemma PhaseKeeps(s: State, e: Event)
    requires Inv(s) && Enabled(s, e) && (e.Restart? || e.Ready?)
    ensures Inv(Step(s, e))
  {
    var s' := Step(s, e);
    forall p | p in s'.db.pending ensures PendingFits(s', p) { assert PendingFits(s, p); }
    forall id ensures IdFits(s', id) {
      assert IdFits(s, id);
      assert forall p :: Cuts(s, p, id) ==> Cuts(s', p, id);
      assert forall p :: Adds(s, p, id) ==> Adds(s', p, id);
    }
  }

  lemma {:induction false} RunKeeps(s: State, es: seq<Event>)
    requires Inv(s) && Valid(s, es)
    ensures Inv(Exec(s, es))
    decreases |es|
  {
    if es != [] {
      StepKeeps(s, es[0]);
      RunKeeps(Step(s, es[0]), es[1..]);
    }
  }

  // ----- What is known of a torn memory

  /** A torn memory has no vector if it was stored, and is never going to be stored if it was not. */
  predicate TornFits(s: State, id: nat) {
    && id in s.home
    && (if id in s.stored then !HasVec(s, id) else s.home[id].writer !in s.live)
  }

  ghost predicate TornInv(s: State) {
    forall id :: id in s.torn ==> TornFits(s, id)
  }

  lemma TearingFits(s: State, o: nat)
    requires Inv(s) && LiveAt(s, o, VecDone)
    ensures var id := s.live[o].op.id;
            id in s.home && if id in s.stored then !HasVec(s, id) else s.home[id].writer == o
  {
    var id := s.live[o].op.id;
    assert LiveFits(s, o) && PendingFits(s, o) && IdFits(s, id);
    assert !Writes(s.live[o].op) ==> Cuts(s, o, id);
  }

  lemma AdvanceKeepsTorn(s: State, o: nat, id: nat)
    requires Inv(s) && Enabled(s, Advance(o)) && id in s.torn && TornFits(s, id)
    ensures TornFits(Advanced(s, o), id)
  {
    assert LiveFits(s, o) && IdFits(s, id);
  }

  lemma StepKeepsTorn(s: State, e: Event, id: nat)
    requires Inv(s) && TornInv(s) && Enabled(s, e) && id in Step(s, e).torn
    ensures TornFits(Step(s, e), id)
  {
    assert IdFits(s, id);
    match e
    case Advance(o) => AdvanceKeepsTorn(s, o, id);
    case Abandon(o) => if s.live[o].stage.VecDone? { TearingFits(s, o); }
    case Crash =>
      if id !in s.torn {
        var o :| o in s.live && s.live[o].stage.VecDone? && s.live[o].op.id == id;
        TearingFits(s, o);
      }
    case _ =>
  }

  lemma {:induction false} RunKeepsTorn(s: State, es: seq<Event>)
    requires Inv(s) && TornInv(s) && Valid(s, es)
    ensures Inv(Exec(s, es)) && TornInv(Exec(s, es))
    decreases |es|
  {
    if es != [] {
      StepKeeps(s, es[0]);
      forall id | id in Step(s, es[0]).torn ensures TornFits(Step(s, es[0]), id) { StepKeepsTorn(s, es[0], id); }
      RunKeepsTorn(Step(s, es[0]), es[1..]);
    }
  }

  // ----- What retires a row

  /** The last committed write that names the row, if that was not before the row was stored. */
  function Retirer(commits: seq<Op>, id: nat): Option<nat> {
    if commits == [] then None
    else
      var last := commits[|commits| - 1];
      if id in last.retires then Some(last.id)
      else if last.id == id then None
      else Retirer(commits[..|commits| - 1], id)
  }

  ghost predicate RetiredInv(s: State) {
    forall id :: id in s.db.rows ==> s.db.rows[id].retiredBy == Retirer(s.commits, id)
  }

  lemma CommitRetires(s: State, o: nat)
    requires RetiredInv(s) && LiveAt(s, o, Marked) && Writes(s.live[o].op)
    ensures RetiredInv(Advanced(s, o))
  {
    var op := s.live[o].op;
    assert (s.commits + [op])[..|s.commits|] == s.commits;
  }

  lemma StepKeepsRetired(s: State, e: Event)
    requires RetiredInv(s) && Enabled(s, e)
    ensures RetiredInv(Step(s, e))
  {
    if e.Advance? && LiveAt(s, e.o, Marked) && Writes(s.live[e.o].op) { CommitRetires(s, e.o); }
  }

  lemma {:induction false} RunKeepsRetired(s: State, es: seq<Event>)
    requires RetiredInv(s) && Valid(s, es)
    ensures RetiredInv(Exec(s, es))
    decreases |es|
  {
    if es != [] {
      StepKeepsRetired(s, es[0]);
      RunKeepsRetired(Step(s, es[0]), es[1..]);
    }
  }
}
