/**
 The two stores and the journal between them: the tables of crates/store/src/metadata.rs and the
 vector collections, and the code that changes both (crates/core/src/pipeline/write.rs,
 service/forget.rs, service.rs, service/admin.rs), run without interruption. `JournalRuns` has
 the interruptions.
 */
module Journal {
  import opened Wrappers

  datatype Kind = Store | Supersede | Forget

  /** A journal entry: `retires` are the rows that a write invalidates. */
  datatype Op = Op(kind: Kind, id: nat, ns: string, retires: set<nat>)

  datatype Pending = Pending(op: Op, written: bool)

  /** `retiredBy` is the memory whose write invalidated this one. */
  datatype Row = Row(ns: string, retiredBy: Option<nat>)

  datatype Db = Db(
    rows: map<nat, Row>,
    vecs: set<(string, nat)>,
    pending: map<nat, Pending>,
    completed: set<nat>)

  // ----- Each function is one call, and one transaction

  function InsertPending(db: Db, o: nat, op: Op): Db {
    db.(pending := db.pending[o := Pending(op, false)])
  }

  function Upsert(db: Db, ns: string, id: nat): Db {
    db.(vecs := db.vecs + {(ns, id)})
  }

  function DeleteVec(db: Db, ns: string, id: nat): Db {
    db.(vecs := db.vecs - {(ns, id)})
  }

  function MarkWritten(db: Db, o: nat): Db {
    if o in db.pending then db.(pending := db.pending[o := db.pending[o].(written := true)]) else db
  }

  function DeleteRow(db: Db, id: nat): Db {
    db.(rows := db.rows - {id})
  }

  function ClearPending(db: Db, o: nat): Db {
    db.(pending := db.pending - {o})
  }

  function Complete(db: Db, o: nat): Db {
    db.(completed := db.completed + {o}, pending := db.pending - {o})
  }

  function Retired(rows: map<nat, Row>, retires: set<nat>, writer: nat): map<nat, Row> {
    map id | id in rows :: if id in retires then rows[id].(retiredBy := Some(writer)) else rows[id]
  }

  function CommitWrite(db: Db, o: nat, op: Op): Db {
    Complete(db.(rows := Retired(db.rows[op.id := Row(op.ns, None)], op.retires, op.id)), o)
  }

  /** A write adds its row and says of every row it names, and of no other, that it has retired it. */
  ghost predicate Inserted(rows: map<nat, Row>, rows': map<nat, Row>, op: Op) {
    && rows'.Keys == rows.Keys + {op.id}
    && rows'[op.id].ns == op.ns
    && (forall id :: id in rows' && id in op.retires ==> rows'[id].retiredBy == Some(op.id))
    && (op.id !in op.retires ==> rows'[op.id].retiredBy.None?)
    && (forall id :: id in rows && id != op.id ==> rows'[id].ns == rows[id].ns)
    && (forall id :: id in rows && id != op.id && id !in op.retires ==> rows'[id].retiredBy == rows[id].retiredBy)
  }

  // ----- Recovery

  /** What recovery makes of one journal entry. */
  function RecoverOp(db: Db, o: nat): Db
    requires o in db.pending
  {
    var Pending(op, written) := db.pending[o];
    if o in db.completed || !written then ClearPending(db, o)
    else if op.kind == Forget then ClearPending(DeleteRow(db, op.id), o)
    else ClearPending(DeleteRow(DeleteVec(db, op.ns, op.id), op.id), o)
  }

  function RecoverAll(db: Db, ops: seq<nat>): Db
    requires Distinct(ops) && forall o :: o in ops ==> o in db.pending
    decreases |ops|, 0
  {
    if ops == [] then db
    else
      var n := |ops| - 1;
      DistinctInit(ops);
      RecoverAllPending(db, ops[..n]);
      RecoverOp(RecoverAll(db, ops[..n]), ops[n])
  }

  predicate Distinct(ops: seq<nat>) {
    forall i, j :: 0 <= i < j < |ops| ==> ops[i] != ops[j]
  }

  function Elems(ops: seq<nat>): set<nat> {
    set o | o in ops
  }

  ghost predicate Lists(ops: seq<nat>, keys: set<nat>) {
    Distinct(ops) && forall o :: o in ops <==> o in keys
  }

  lemma DistinctInit(ops: seq<nat>)
    requires Distinct(ops) && ops != []
    ensures Distinct(ops[..|ops| - 1]) && ops[|ops| - 1] !in ops[..|ops| - 1]
  {
  }

  /** An entry is cleared once it has been dealt with, and no other is touched. */
  lemma {:induction false} RecoverAllPending(db: Db, ops: seq<nat>)
    requires Distinct(ops) && forall o :: o in ops ==> o in db.pending
    ensures RecoverAll(db, ops).completed == db.completed
    ensures forall o :: o in RecoverAll(db, ops).pending <==> o in db.pending && o !in ops
    ensures forall o :: o in RecoverAll(db, ops).pending ==> RecoverAll(db, ops).pending[o] == db.pending[o]
    decreases |ops|, 1
  {
    if ops != [] {
      var n := |ops| - 1;
      DistinctInit(ops);
      RecoverAllPending(db, ops[..n]);
      assert forall o :: o in ops <==> o in ops[..n] || o == ops[n];
    }
  }

  datatype RecoveryReport = RecoveryReport(clearedPreQdrant: nat, compensatedStores: nat, rolledForwardForgets: nat)

  predicate Cleared(db: Db, o: nat) {
    o in db.pending && o !in db.completed && !db.pending[o].written
  }

  predicate Compensated(db: Db, o: nat) {
    o in db.pending && o !in db.completed && db.pending[o].written && db.pending[o].op.kind != Forget
  }

  predicate RolledForward(db: Db, o: nat) {
    o in db.pending && o !in db.completed && db.pending[o].written && db.pending[o].op.kind == Forget
  }

  function NumberOf(ops: set<nat>, holds: nat -> bool): nat {
    |set o | o in ops && holds(o)|
  }

  function ReportOn(db: Db, ops: set<nat>): RecoveryReport {
    RecoveryReport(NumberOf(ops, (p: nat) => Cleared(db, p)),
                   NumberOf(ops, (p: nat) => Compensated(db, p)),
                   NumberOf(ops, (p: nat) => RolledForward(db, p)))
  }

  lemma NumberPush(ops: set<nat>, o: nat, holds: nat -> bool)
    requires o !in ops
    ensures NumberOf(ops + {o}, holds) == NumberOf(ops, holds) + if holds(o) then 1 else 0
  {
    var these, those := set p | p in ops && holds(p), set p | p in ops + {o} && holds(p);
    assert those == if holds(o) then these + {o} else these;
  }

  function Reported(r: RecoveryReport, db: Db, o: nat): RecoveryReport {
    RecoveryReport(r.clearedPreQdrant + (if Cleared(db, o) then 1 else 0),
                   r.compensatedStores + (if Compensated(db, o) then 1 else 0),
                   r.rolledForwardForgets + (if RolledForward(db, o) then 1 else 0))
  }

  lemma ReportPush(db: Db, ops: set<nat>, o: nat)
    requires o !in ops
    ensures ReportOn(db, ops + {o}) == Reported(ReportOn(db, ops), db, o)
  {
    NumberPush(ops, o, (p: nat) => Cleared(db, p));
    NumberPush(ops, o, (p: nat) => Compensated(db, p));
    NumberPush(ops, o, (p: nat) => RolledForward(db, p));
  }

  // ----- Forgetting

  function Numbers(from: nat, n: nat): set<nat> {
    if n == 0 then {} else Numbers(from, n - 1) + {from + n - 1}
  }

  /** What is left of the stores when `ids` have been forgotten. */
  function ForgetAll(db: Db, ids: seq<nat>): (Db, seq<nat>, seq<nat>) {
    if ids == [] then (db, [], [])
    else
      var n := |ids| - 1;
      var (db1, deleted, notFound) := ForgetAll(db, ids[..n]);
      if ids[n] in db1.rows
      then (DeleteRow(DeleteVec(db1, db1.rows[ids[n]].ns, ids[n]), ids[n]), deleted + [ids[n]], notFound)
      else (db1, deleted, notFound + [ids[n]])
  }

  lemma {:induction false} ForgetAllRemoves(db: Db, ids: seq<nat>)
    ensures var (db', deleted, notFound) := ForgetAll(db, ids);
            && db'.pending == db.pending && db'.completed == db.completed
            && (forall id :: id in db'.rows <==> id in db.rows && id !in ids)
            && (forall id :: id in db'.rows ==> db'.rows[id] == db.rows[id])
            && (forall ns, id :: (ns, id) in db'.vecs <==>
                  (ns, id) in db.vecs && !(id in ids && id in db.rows && db.rows[id].ns == ns))
            && Distinct(deleted) && (forall id :: id in deleted <==> id in ids && id in db.rows)
            && (forall id :: id in ids && id !in db.rows ==> id in notFound)
            && |deleted| + |notFound| == |ids|
  {
    if ids != [] {
      var n := |ids| - 1;
      ForgetAllRemoves(db, ids[..n]);
      assert forall id :: id in ids <==> id in ids[..n] || id == ids[n];
    }
  }

  // ----- The stores as objects

  class Stores {
    var rows: map<nat, Row>
    var vecs: set<(string, nat)>
    var pending: map<nat, Pending>
    var completed: set<nat>

    ghost function Tables(): Db
      reads this
    {
      Db(rows, vecs, pending, completed)
    }

    constructor ()
      ensures Tables() == Db(map[], {}, map[], {})
    {
      rows, vecs, pending, completed := map[], {}, map[], {};
    }

    method PutPending(o: nat, op: Op)
      modifies this`pending
      ensures Tables() == InsertPending(old(Tables()), o, op)
    {
      pending := pending[o := Pending(op, false)];
    }

    method PutVec(ns: string, id: nat)
      modifies this`vecs
      ensures Tables() == Upsert(old(Tables()), ns, id)
    {
      vecs := vecs + {(ns, id)};
    }

    method RemoveVec(ns: string, id: nat)
      modifies this`vecs
      ensures Tables() == DeleteVec(old(Tables()), ns, id)
    {
      vecs := vecs - {(ns, id)};
    }

    method Mark(o: nat)
      modifies this`pending
      ensures Tables() == MarkWritten(old(Tables()), o)
    {
      if o in pending { pending := pending[o := pending[o].(written := true)]; }
    }

    method RemoveRow(id: nat)
      modifies this`rows
      ensures Tables() == DeleteRow(old(Tables()), id)
    {
      rows := rows - {id};
    }

    method Clear(o: nat)
      modifies this`pending
      ensures Tables() == ClearPending(old(Tables()), o)
    {
      pending := pending - {o};
    }

    method Finish(o: nat)
      modifies this`pending, this`completed
      ensures Tables() == Complete(old(Tables()), o)
    {
      completed := completed + {o};
      pending := pending - {o};
    }

    /** `commit_memory_write`: the row, the invalidations and the completion, in one transaction. */
    method Commit(o: nat, op: Op)
      modifies this`rows, this`pending, this`completed
      ensures Tables() == CommitWrite(old(Tables()), o, op)
      ensures Inserted(old(rows), rows, op)
      ensures pending == old(pending) - {o} && completed == old(completed) + {o}
    {
      rows := Retired(rows[op.id := Row(op.ns, None)], op.retires, op.id);
      Finish(o);
    }

    /** `write_impl`: the journal first, then the vector, its mark, and all rows in one transaction. */
    method Write(o: nat, op: Op)
      requires o !in pending && op.kind != Forget
      modifies this
      ensures Inserted(old(rows), rows, op)
      ensures vecs == old(vecs) + {(op.ns, op.id)}
      ensures pending == old(pending) && completed == old(completed) + {o}
    {
      PutPending(o, op);
      PutVec(op.ns, op.id);
      Mark(o);
      Commit(o, op);
    }

    method ForgetOne(id: nat, o: nat)
      requires id in rows && o !in pending
      modifies this
      ensures rows == old(rows) - {id} && vecs == old(vecs) - {(old(rows)[id].ns, id)}
      ensures pending == old(pending) && completed == old(completed) + {o}
    {
      var ns := rows[id].ns;
      PutPending(o, Op(Forget, id, ns, {}));
      RemoveVec(ns, id);
      Mark(o);
      RemoveRow(id);
      Finish(o);
    }

    /** `forget`: `next` numbers the journal entries, and is above all of them. */
    method ForgetIds(ids: seq<nat>, next: nat) returns (deleted: seq<nat>, notFound: seq<nat>)
      requires forall o :: o in pending ==> o < next
      modifies this
      ensures rows == ForgetAll(old(Tables()), ids).0.rows && vecs == ForgetAll(old(Tables()), ids).0.vecs
      ensures pending == old(pending)
      ensures completed == old(completed) + Numbers(next, |deleted|)
      ensures (deleted, notFound) == (ForgetAll(old(Tables()), ids).1, ForgetAll(old(Tables()), ids).2)
    {
      deleted, notFound := [], [];
      var i := 0;
      while i < |ids|
        invariant 0 <= i <= |ids|
        invariant rows == ForgetAll(old(Tables()), ids[..i]).0.rows && vecs == ForgetAll(old(Tables()), ids[..i]).0.vecs
        invariant pending == old(pending)
        invariant completed == old(completed) + Numbers(next, |deleted|)
        invariant deleted == ForgetAll(old(Tables()), ids[..i]).1 && notFound == ForgetAll(old(Tables()), ids[..i]).2
      {
        assert ids[..i + 1][..i] == ids[..i];
        var id := ids[i];
        if id in rows {
          ForgetOne(id, next + |deleted|);
          deleted := deleted + [id];
        } else {
          notFound := notFound + [id];
        }
        i := i + 1;
      }
      assert ids[..|ids|] == ids;
    }

    /** The pending operations, in some order: only their clocks order them. */
    method ListPending() returns (ops: seq<nat>)
      ensures Lists(ops, pending.Keys)
    {
      ops := [];
      var rest := pending.Keys;
      while rest != {}
        invariant Distinct(ops) && rest !! set o | o in ops
        invariant pending.Keys == rest + set o | o in ops
        decreases |rest|
      {
        var o :| o in rest;
        ops, rest := ops + [o], rest - {o};
      }
    }

    /** One entry of `recover_on_startup`. */
    method RecoverEntry(o: nat, r: RecoveryReport) returns (report: RecoveryReport)
      requires o in pending
      modifies this
      ensures Tables() == RecoverOp(old(Tables()), o)
      ensures report == Reported(r, old(Tables()), o)
    {
      report := r;
      if o in completed {
        Clear(o);
      } else {
        var Pending(op, written) := pending[o];
        if !written {
          report := r.(clearedPreQdrant := r.clearedPreQdrant + 1);
        } else if op.kind == Forget {
          RemoveRow(op.id);
          report := r.(rolledForwardForgets := r.rolledForwardForgets + 1);
        } else {
          RemoveVec(op.ns, op.id);
          RemoveRow(op.id);
          report := r.(compensatedStores := r.compensatedStores + 1);
        }
        Clear(o);
      }
    }

    /** `recover_on_startup`. */
    method RecoverOnStartup() returns (report: RecoveryReport, ghost ops: seq<nat>)
      modifies this
      ensures pending == map[]
      ensures Lists(ops, old(pending).Keys) && Tables() == RecoverAll(old(Tables()), ops)
      ensures report == ReportOn(old(Tables()), old(pending).Keys)
    {
      var todo := ListPending();
      ops := todo;
      report := RecoverListed(todo);
      RecoverAllPending(old(Tables()), todo);
      assert Elems(todo) == old(pending).Keys;
    }

    method RecoverListed(todo: seq<nat>) returns (report: RecoveryReport)
      requires Distinct(todo) && forall o :: o in todo ==> o in pending
      modifies this
      ensures Tables() == RecoverAll(old(Tables()), todo)
      ensures report == ReportOn(old(Tables()), Elems(todo))
    {
      ghost var db := Tables();
      report := RecoveryReport(0, 0, 0);
      var i := 0;
      while i < |todo|
        invariant 0 <= i <= |todo|
        invariant Tables() == RecoverAll(db, todo[..i])
        invariant report == ReportOn(db, Elems(todo[..i]))
      {
        RecoverNext(db, todo, i);
        report := RecoverEntry(todo[i], report);
        i := i + 1;
      }
      assert todo[..|todo|] == todo;
    }

    /** `audit_reconcile` with `fix`: `None` if it refuses. */
    method AuditFix(ns: string, limit: nat) returns (report: Option<(set<nat>, set<nat>)>)
      modifies this`vecs
      ensures vecs == if report.Some? then Audited(old(Tables()), ns) else old(vecs)
      ensures report.Some? <==> |VecIds(old(vecs), ns) - RowIds(rows, ns)| <= limit
      ensures report.Some? ==>
                report.value == (VecIds(old(vecs), ns) - RowIds(rows, ns), RowIds(rows, ns) - VecIds(old(vecs), ns))
    {
      var qdrantOnly := VecIds(vecs, ns) - RowIds(rows, ns);
      var sqliteOnly := RowIds(rows, ns) - VecIds(vecs, ns);
      if |qdrantOnly| > limit { return None; }
      AuditedIs(Tables(), ns);
      vecs := set v | v in vecs && !(v.0 == ns && v.1 in qdrantOnly);
      report := Some((qdrantOnly, sqliteOnly));
    }
  }

  lemma AuditedIs(db: Db, ns: string)
    ensures Audited(db, ns) == set v | v in db.vecs && !(v.0 == ns && v.1 in VecIds(db.vecs, ns) - RowIds(db.rows, ns))
  {
  }

  lemma RecoverNext(db: Db, todo: seq<nat>, i: nat)
    requires Distinct(todo) && (forall o :: o in todo ==> o in db.pending) && i < |todo|
    ensures var db1 := RecoverAll(db, todo[..i]);
            && todo[i] in db1.pending && RecoverAll(db, todo[..i + 1]) == RecoverOp(db1, todo[i])
            && ReportOn(db, Elems(todo[..i + 1])) == Reported(ReportOn(db, Elems(todo[..i])), db1, todo[i])
  {
    RecoverAllPending(db, todo[..i]);
    assert todo[..i + 1][..i] == todo[..i];
    ElemsPush(todo, i);
    ReportPush(db, Elems(todo[..i]), todo[i]);
    SameReport(ReportOn(db, Elems(todo[..i])), db, RecoverAll(db, todo[..i]), todo[i]);
  }

  lemma ElemsPush(todo: seq<nat>, i: nat)
    requires Distinct(todo) && i < |todo|
    ensures Elems(todo[..i + 1]) == Elems(todo[..i]) + {todo[i]} && todo[i] !in Elems(todo[..i])
  {
    assert todo[..i + 1] == todo[..i] + [todo[i]];
  }

  lemma SameReport(r: RecoveryReport, db: Db, db': Db, o: nat)
    requires o in db.pending && o in db'.pending && db.pending[o] == db'.pending[o] && db.completed == db'.completed
    ensures Reported(r, db, o) == Reported(r, db', o)
  {
  }

  function VecIds(vecs: set<(string, nat)>, ns: string): set<nat> {
    set v | v in vecs && v.0 == ns :: v.1
  }

  function RowIds(rows: map<nat, Row>, ns: string): set<nat> {
    set id | id in rows && rows[id].ns == ns
  }

  function Audited(db: Db, ns: string): set<(string, nat)> {
    set v | v in db.vecs && (v.0 == ns ==> v.1 in db.rows && db.rows[v.1].ns == ns)
  }
}
