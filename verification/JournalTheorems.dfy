/** What the journal promises, over every run of `JournalRuns`. */
module JournalTheorems {
  import opened Wrappers
  import opened Journal
  import opened JournalRuns

  // ----- Crash consistency

  /** Both stores hold `id`, in the same namespace, or neither does. */
  ghost predicate Agrees(db: Db, id: nat) {
    forall ns :: (ns, id) in db.vecs <==> id in db.rows && db.rows[id].ns == ns
  }

  /**
   A completed recovery leaves the journal empty, and the stores disagree on exactly those memories
   whose operation stopped between its vector call and the mark, and that one of the stores still
   holds: none that a later forget, recovery or audit has removed from both.
   */
  lemma RecoveryIsConsistent(s: State, es: seq<Event>)
    requires AtRest(s) && Valid(s, es) && Enabled(Exec(s, es), Ready)
    ensures var s' := Exec(s, es);
            && s'.db.pending == map[] && s'.live == map[]
            && forall id :: !Agrees(s'.db, id) <==> id in s'.torn && (id in s'.db.rows || HasVec(s', id))
  {
    AtRestHasInv(s);
    RunKeepsTorn(s, es);
    var s' := Exec(s, es);
    assert s'.db.pending.Keys == {};
    forall id ensures !Agrees(s'.db, id) <==> id in s'.torn && (id in s'.db.rows || HasVec(s', id)) {
      AgreesIff(s', id);
    }
  }

  lemma AgreesIff(s: State, id: nat)
    requires Inv(s) && TornInv(s) && s.db.pending == map[]
    ensures !Agrees(s.db, id) <==> id in s.torn && (id in s.db.rows || HasVec(s, id))
  {
    assert IdFits(s, id) && (id in s.torn ==> TornFits(s, id));
    if id in s.home && (id in s.db.rows) != HasVec(s, id) {
      assert !((s.home[id].ns, id) in s.db.vecs <==> id in s.db.rows && s.db.rows[id].ns == s.home[id].ns);
    }
  }

  /**
   At every point of every run: a committed store is there until a forget is asked for it, a
   completed forget is never undone, and only a committed write has invalidated a row.
   */
  lemma NothingIsUndone(s: State, es: seq<Event>)
    requires AtRest(s) && Valid(s, es)
    ensures var s' := Exec(s, es);
            && (forall id :: id in s'.stored && id !in s'.asked ==> id in s'.db.rows)
            && (forall id :: id in s'.db.rows ==> id in s'.stored && id !in s'.gone)
            && (forall id, ns :: id in s'.gone ==> (ns, id) !in s'.db.vecs)
            && (forall id :: id in s'.db.rows && s'.db.rows[id].retiredBy.Some? ==>
                  s'.db.rows[id].retiredBy.value in s'.stored)
  {
    AtRestHasInv(s);
    RunKeeps(s, es);
    var s' := Exec(s, es);
    forall id | id in s'.stored && id !in s'.asked ensures id in s'.db.rows { assert IdFits(s', id); }
    forall id | id in s'.db.rows ensures id in s'.stored && id !in s'.gone { assert IdFits(s', id); }
    forall id, ns | id in s'.gone ensures (ns, id) !in s'.db.vecs { assert IdFits(s', id); }
    forall id | id in s'.db.rows && s'.db.rows[id].retiredBy.Some?
      ensures s'.db.rows[id].retiredBy.value in s'.stored
    {
      assert IdFits(s', id);
    }
  }

  /** The `k`-th commit names the row, none after it does, and the row is not stored after it. */
  ghost predicate NamesLast(commits: seq<Op>, id: nat, k: nat) {
    && k < |commits| && id in commits[k].retires
    && forall j :: k < j < |commits| ==> id !in commits[j].retires && commits[j].id != id
  }

  lemma {:induction false} RetirerIs(commits: seq<Op>, id: nat)
    ensures Retirer(commits, id).Some? <==> exists k: nat :: NamesLast(commits, id, k)
    ensures forall k: nat :: NamesLast(commits, id, k) ==> Retirer(commits, id) == Some(commits[k].id)
  {
    if commits != [] {
      var n := |commits| - 1;
      var before := commits[..n];
      RetirerIs(before, id);
      if id in commits[n].retires {
        assert NamesLast(commits, id, n);
        forall k: nat | NamesLast(commits, id, k) ensures k == n {}
      } else if commits[n].id == id {
        forall k: nat ensures !NamesLast(commits, id, k) { assert k < n ==> commits[n].id == id; }
      } else {
        forall k: nat ensures NamesLast(before, id, k) <==> NamesLast(commits, id, k) { NamesLastInit(commits, id, k); }
      }
    }
  }

  lemma NamesLastInit(commits: seq<Op>, id: nat, k: nat)
    requires commits != [] && id !in commits[|commits| - 1].retires && commits[|commits| - 1].id != id
    ensures NamesLast(commits[..|commits| - 1], id, k) <==> NamesLast(commits, id, k)
  {
    var n := |commits| - 1;
    assert forall j :: 0 <= j < n ==> commits[..n][j] == commits[j];
  }

  /**
   At every point of every run, a row that is there is retired by the last committed write that names
   it, and by none if no committed write has named it since it was stored.
   */
  lemma RetiredByTheLastThatNamesIt(s: State, es: seq<Event>, id: nat)
    requires AtRest(s) && Valid(s, es) && id in Exec(s, es).db.rows
    ensures var s' := Exec(s, es);
            && (s'.db.rows[id].retiredBy.Some? <==> exists k: nat :: NamesLast(s'.commits, id, k))
            && (forall k: nat :: NamesLast(s'.commits, id, k) ==> s'.db.rows[id].retiredBy == Some(s'.commits[k].id))
            && id in s'.home && s'.db.rows[id].ns == s'.home[id].ns
  {
    AtRestHasInv(s);
    RunKeeps(s, es);
    RunKeepsRetired(s, es);
    assert IdFits(Exec(s, es), id);
    RetirerIs(Exec(s, es).commits, id);
  }

  /**
   An audit after a completed recovery: if it fixes, the vectors of the namespace are among its
   rows, and it has removed, as it reports as missing, only ids that were torn.
   */
  lemma AuditAfterRecovery(s: State, es: seq<Event>, ns: string, limit: nat)
    requires AtRest(s) && Valid(s, es) && Enabled(Exec(s, es), Ready)
    ensures var s1 := Step(Exec(s, es), Ready);
            var fixed, missing := VecIds(s1.db.vecs, ns) - RowIds(s1.db.rows, ns), RowIds(s1.db.rows, ns) - VecIds(s1.db.vecs, ns);
            && Enabled(s1, Audit(ns, limit))
            && fixed <= s1.torn && missing <= s1.torn
            && (|fixed| <= limit ==>
                  var s2 := Step(s1, Audit(ns, limit));
                  && VecIds(s2.db.vecs, ns) == RowIds(s2.db.rows, ns) - missing
                  && s2.db.rows == s1.db.rows
                  && forall other, id :: other != ns ==> ((other, id) in s2.db.vecs <==> (other, id) in s1.db.vecs))
            && (|fixed| > limit ==> Step(s1, Audit(ns, limit)) == s1)
  {
    RecoveryIsConsistent(s, es);
    var s1 := Step(Exec(s, es), Ready);
    var vecs, rows := VecIds(s1.db.vecs, ns), RowIds(s1.db.rows, ns);
    forall id | id in (vecs - rows) + (rows - vecs) ensures id in s1.torn {
      assert id !in s1.torn ==> Agrees(s1.db, id);
      assert id in vecs <==> (ns, id) in s1.db.vecs;
    }
    assert VecIds(Audited(s1.db, ns), ns) == vecs * rows;
  }

  // ----- The exception is real

  lemma Then(s: State, e: Event, es: seq<Event>)
    requires Enabled(s, e) && Valid(Step(s, e), es)
    ensures Valid(s, [e] + es) && Exec(s, [e] + es) == Exec(Step(s, e), es)
  {
    assert ([e] + es)[1..] == es;
  }

  predicate Recovers(e: Event) {
    e.Crash? || e.Restart? || e.Recover?
  }

  /** No open entry of the journal for `id` is marked. */
  ghost predicate Unmarked(db: Db, id: nat) {
    forall o :: o in db.pending && db.pending[o].op.id == id ==> o in db.completed || !db.pending[o].written
  }

  predicate SameIn(a: Db, b: Db, id: nat) {
    && (id in a.rows <==> id in b.rows) && (id in a.rows && id in b.rows ==> a.rows[id] == b.rows[id])
    && (forall v :: v in a.vecs && v.1 == id ==> v in b.vecs) && (forall v :: v in b.vecs && v.1 == id ==> v in a.vecs)
  }

  /** A recovery, with any crashes, leaves a memory as it is whose entries are not marked. */
  lemma {:induction false} RecoverySpares(s: State, es: seq<Event>, id: nat)
    requires !s.phase.Up? && Valid(s, es) && Unmarked(s.db, id) && forall e :: e in es ==> Recovers(e)
    ensures SameIn(s.db, Exec(s, es).db, id) && s.torn <= Exec(s, es).torn
    decreases |es|
  {
    if es != [] {
      assert es[0] in es;
      assert forall e :: e in es[1..] ==> e in es;
      RecoverySpares(Step(s, es[0]), es[1..], id);
    }
  }

  /** `u` after the operation has begun, made its journal entry and its vector call, and crashed. */
  ghost function TornBy(u: State, e: Event, o: nat): State
    requires Enabled(u, e) && (e.BeginWrite? || e.BeginForget?) && e.o == o
  {
    Step(Advanced(Advanced(Step(u, e), o), o), Crash)
  }

  /** A recovery cannot tell whether a vector was put: whatever it does, the torn store stays apart. */
  lemma TornStoreDisagrees(s: State, es: seq<Event>, o: nat, op: Op, recovery: seq<Event>)
    requires AtRest(s) && Valid(s, es) && Enabled(Exec(s, es), BeginWrite(o, op))
    requires Valid(TornBy(Exec(s, es), BeginWrite(o, op), o), recovery) && forall e :: e in recovery ==> Recovers(e)
    ensures var s' := Exec(TornBy(Exec(s, es), BeginWrite(o, op), o), recovery);
            op.id in s'.torn && op.id !in s'.db.rows && (op.ns, op.id) in s'.db.vecs && !Agrees(s'.db, op.id)
  {
    var u := Exec(s, es);
    AtRestHasInv(s);
    RunKeeps(s, es);
    var c := TornBy(u, BeginWrite(o, op), o);
    assert IdFits(u, op.id);
    forall p | p in c.db.pending && c.db.pending[p].op.id == op.id && p != o ensures p in c.db.completed {
      assert PendingFits(u, p);
    }
    assert Advanced(Advanced(Step(u, BeginWrite(o, op)), o), o).live[o] == Live(op, VecDone);
    RecoverySpares(c, recovery, op.id);
    assert (op.ns, op.id) in c.db.vecs;
  }

  /** Nor whether one was deleted: the torn forget stays apart, if no other forget of the memory is marked. */
  lemma TornForgetDisagrees(s: State, es: seq<Event>, o: nat, id: nat, recovery: seq<Event>)
    requires AtRest(s) && Valid(s, es) && Enabled(Exec(s, es), BeginForget(o, id)) && Unmarked(Exec(s, es).db, id)
    requires Valid(TornBy(Exec(s, es), BeginForget(o, id), o), recovery) && forall e :: e in recovery ==> Recovers(e)
    ensures var s' := Exec(TornBy(Exec(s, es), BeginForget(o, id), o), recovery);
            id in s'.torn && id in s'.db.rows && (s'.db.rows[id].ns, id) !in s'.db.vecs && !Agrees(s'.db, id)
  {
    var u := Exec(s, es);
    var c := TornBy(u, BeginForget(o, id), o);
    var op := Op(Forget, id, u.db.rows[id].ns, {});
    assert Advanced(Advanced(Step(u, BeginForget(o, id)), o), o).live[o] == Live(op, VecDone);
    RecoverySpares(c, recovery, id);
    assert (op.ns, id) !in c.db.vecs;
  }

  // ----- The uninterrupted code is a run of the machine

  function Repeat(e: Event, n: nat): seq<Event> {
    if n == 0 then [] else [e] + Repeat(e, n - 1)
  }

  lemma {:induction false} RepeatThen(s: State, e: Event, n: nat, es: seq<Event>)
    requires Valid(s, Repeat(e, n)) && Valid(Exec(s, Repeat(e, n)), es)
    ensures Valid(s, Repeat(e, n) + es) && Exec(s, Repeat(e, n) + es) == Exec(Exec(s, Repeat(e, n)), es)
    decreases n
  {
    if n == 0 {
      assert [] + es == es;
    } else {
      assert Repeat(e, n)[1..] == Repeat(e, n - 1);
      assert (Repeat(e, n) + es)[1..] == Repeat(e, n - 1) + es;
      RepeatThen(Step(s, e), e, n - 1, es);
    }
  }

  ghost predicate Leads(s: State, es: seq<Event>, s': State) {
    Valid(s, es) && Exec(s, es) == s'
  }

  /** The next call of `o` leads on to `s'`. */
  lemma Next(s: State, o: nat, n: nat, s1: State, s': State)
    requires o in s.live && s.phase.Up? && s1 == Advanced(s, o) && Leads(s1, Repeat(Advance(o), n), s')
    ensures Leads(s, Repeat(Advance(o), n + 1), s')
  {
    Then(s, Advance(o), Repeat(Advance(o), n));
  }

  lemma WriteAdvances(s: State, o: nat, op: Op)
    requires s.phase.Up? && LiveAt(s, o, Prepared) && s.live[o].op == op && Writes(op) && o !in s.db.pending
    ensures var db := s.db.(
              rows := Retired(s.db.rows[op.id := Row(op.ns, None)], op.retires, op.id),
              vecs := s.db.vecs + {(op.ns, op.id)}, completed := s.db.completed + {o});
            Leads(s, Repeat(Advance(o), 4), s.(db := db, live := s.live - {o}, stored := s.stored + {op.id},
                                               commits := s.commits + [op]))
  {
    var s2 := Advanced(s, o);
    var s3 := Advanced(s2, o);
    var s4 := Advanced(s3, o);
    var s5 := Advanced(s4, o);
    assert s5.db.pending == s.db.pending && s5.live == s.live - {o};
    assert Leads(s5, Repeat(Advance(o), 0), s5);
    Next(s4, o, 0, s5, s5);
    Next(s3, o, 1, s4, s5);
    Next(s2, o, 2, s3, s5);
    Next(s, o, 3, s2, s5);
  }

  lemma ForgetAdvances(s: State, o: nat, op: Op)
    requires s.phase.Up? && LiveAt(s, o, Prepared) && s.live[o].op == op && !Writes(op) && o !in s.db.pending
    ensures var db := s.db.(
              rows := s.db.rows - {op.id}, vecs := s.db.vecs - {(op.ns, op.id)}, completed := s.db.completed + {o});
            Leads(s, Repeat(Advance(o), 5), s.(db := db, live := s.live - {o}, gone := s.gone + {op.id}))
  {
    var s2 := Advanced(s, o);
    var s3 := Advanced(s2, o);
    var s4 := Advanced(s3, o);
    var s5 := Advanced(s4, o);
    var s6 := Advanced(s5, o);
    assert s6.db.pending == s.db.pending && s6.live == s.live - {o};
    assert Leads(s6, Repeat(Advance(o), 0), s6);
    Next(s5, o, 0, s6, s6);
    Next(s4, o, 1, s5, s6);
    Next(s3, o, 2, s4, s6);
    Next(s2, o, 3, s3, s6);
    Next(s, o, 4, s2, s6);
  }

  lemma NewOperation(s: State, o: nat)
    requires Inv(s) && o !in s.ops
    ensures o !in s.db.pending && o !in s.live
  {
    assert o in s.db.pending ==> PendingFits(s, o);
    assert o in s.live ==> LiveFits(s, o);
  }

  /** A write, left alone, makes of the stores what `Stores.Write` does. */
  lemma WriteRuns(s: State, o: nat, op: Op)
    requires Inv(s) && Enabled(s, BeginWrite(o, op))
    ensures var es := [BeginWrite(o, op)] + Repeat(Advance(o), 4);
            && Valid(s, es)
            && var s' := Exec(s, es);
               && Inserted(s.db.rows, s'.db.rows, op) && s'.commits == s.commits + [op]
               && s'.db.vecs == s.db.vecs + {(op.ns, op.id)}
               && s'.db.pending == s.db.pending && s'.db.completed == s.db.completed + {o}
               && s'.live == s.live && s'.phase == s.phase
  {
    NewOperation(s, o);
    WriteAdvances(Step(s, BeginWrite(o, op)), o, op);
    Then(s, BeginWrite(o, op), Repeat(Advance(o), 4));
    assert Step(s, BeginWrite(o, op)).live - {o} == s.live;
  }

  /** A forget, left alone, makes of the stores what one turn of `Stores.ForgetIds` does. */
  lemma ForgetRuns(s: State, o: nat, id: nat)
    requires Inv(s) && Enabled(s, BeginForget(o, id))
    ensures var es := [BeginForget(o, id)] + Repeat(Advance(o), 5);
            && Valid(s, es)
            && var s' := Exec(s, es);
               && s'.db.rows == s.db.rows - {id} && s'.db.vecs == s.db.vecs - {(s.db.rows[id].ns, id)}
               && s'.db.pending == s.db.pending && s'.db.completed == s.db.completed + {o}
               && s'.live == s.live && s'.phase == s.phase && id in s'.gone
  {
    NewOperation(s, o);
    var s1 := Step(s, BeginForget(o, id));
    ForgetAdvances(s1, o, s1.live[o].op);
    Then(s, BeginForget(o, id), Repeat(Advance(o), 5));
    assert s1.live - {o} == s.live;
  }

  /** The calls that one entry takes. */
  function Calls(s: State): nat
    requires s.phase.Recovering? && s.phase.todo != [] && s.phase.todo[0] in s.db.pending
  {
    var o := s.phase.todo[0];
    if !Open(s, o) || !s.db.pending[o].written then 1 else if Writes(s.db.pending[o].op) then 3 else 2
  }

  predicate Fresh(s: State) {
    s.phase.Recovering? && !s.phase.vecGone && !s.phase.rowGone
  }

  lemma EntryRuns(s: State)
    requires Fresh(s) && Enabled(s, Recover)
    ensures var es := Repeat(Recover, Calls(s));
            && Valid(s, es)
            && Exec(s, es) == s.(db := RecoverOp(s.db, s.phase.todo[0]), phase := Recovering(s.phase.todo[1..], false, false))
  {
    var s1 := Step(s, Recover);
    if Calls(s) == 1 {
      Then(s, Recover, Repeat(Recover, 0));
    } else {
      var s2 := Step(s1, Recover);
      if Calls(s) == 2 {
        Then(s1, Recover, Repeat(Recover, 0));
      } else {
        Then(s2, Recover, Repeat(Recover, 0));
        Then(s1, Recover, Repeat(Recover, 1));
      }
      Then(s, Recover, Repeat(Recover, Calls(s) - 1));
    }
  }

  lemma {:induction false} RecoverAllHead(db: Db, ops: seq<nat>)
    requires ops != [] && Distinct(ops) && forall o :: o in ops ==> o in db.pending
    ensures forall o :: o in ops[1..] ==> o in RecoverOp(db, ops[0]).pending
    ensures RecoverAll(db, ops) == RecoverAll(RecoverOp(db, ops[0]), ops[1..])
  {
    var n := |ops| - 1;
    if n == 0 {
      assert ops[..0] == [] && ops[1..] == [];
    } else {
      RecoverAllHead(db, ops[..n]);
      assert ops[1..][..n - 1] == ops[..n][1..];
    }
  }

  lemma RepeatLeads(s: State, e: Event, a: nat, s1: State, b: nat, s2: State)
    requires Leads(s, Repeat(e, a), s1) && Leads(s1, Repeat(e, b), s2)
    ensures Leads(s, Repeat(e, a + b), s2)
  {
    RepeatThen(s, e, a, Repeat(e, b));
    RepeatAdd(e, a, b);
  }

  lemma RestListed(db: Db, todo: seq<nat>)
    requires todo != [] && Lists(todo, db.pending.Keys)
    ensures Lists(todo[1..], RecoverOp(db, todo[0]).pending.Keys)
  {
    assert todo == [todo[0]] + todo[1..];
  }

  ghost predicate AtEntry(s: State) {
    Fresh(s) && Lists(s.phase.todo, s.db.pending.Keys)
  }

  function EntryDone(s: State): State
    requires Fresh(s) && s.phase.todo != [] && s.phase.todo[0] in s.db.pending
  {
    s.(db := RecoverOp(s.db, s.phase.todo[0]), phase := Recovering(s.phase.todo[1..], false, false))
  }

  ghost function Recovered(s: State): State
    requires AtEntry(s)
  {
    s.(db := RecoverAll(s.db, s.phase.todo), phase := Recovering([], false, false))
  }

  lemma EntryIsDone(s: State)
    requires AtEntry(s) && s.phase.todo != []
    ensures s.phase.todo[0] in s.db.pending && AtEntry(EntryDone(s)) && Recovered(EntryDone(s)) == Recovered(s)
    ensures Leads(s, Repeat(Recover, Calls(s)), EntryDone(s))
  {
    RestListed(s.db, s.phase.todo);
    RecoverAllHead(s.db, s.phase.todo);
    EntryRuns(s);
  }

  /** How many calls all entries take together. */
  ghost function AllCalls(s: State): nat
    requires AtEntry(s)
    decreases |s.phase.todo|
  {
    if s.phase.todo == [] then 0
    else
      EntryIsDone(s);
      Calls(s) + AllCalls(EntryDone(s))
  }

  /** A recovery that is not interrupted makes of the stores what `Stores.RecoverOnStartup` does. */
  lemma {:induction false} RecoveryRuns(s: State)
    requires AtEntry(s)
    ensures Leads(s, Repeat(Recover, AllCalls(s)), Recovered(s))
    decreases |s.phase.todo|
  {
    if s.phase.todo == [] {
      assert Recovered(s) == s;
    } else {
      EntryIsDone(s);
      RecoveryRuns(EntryDone(s));
      var m := AllCalls(EntryDone(s));
      assert AllCalls(s) == Calls(s) + m;
      RepeatLeads(s, Recover, Calls(s), EntryDone(s), m, Recovered(s));
    }
  }

  lemma {:induction false} RepeatAdd(e: Event, a: nat, b: nat)
    ensures Repeat(e, a) + Repeat(e, b) == Repeat(e, a + b)
    decreases a
  {
    if a > 0 {
      RepeatAdd(e, a - 1, b);
      var x, y := Repeat(e, a - 1), Repeat(e, b);
      assert ([e] + x) + y == [e] + (x + y);
    } else {
      assert [] + Repeat(e, b) == Repeat(e, b);
    }
  }

  ghost function Listing(keys: set<nat>): (ops: seq<nat>)
    ensures Lists(ops, keys)
  {
    if keys == {} then []
    else
      var o :| o in keys;
      Listing(keys - {o}) + [o]
  }

  /** From every crash, some recovery runs to its end. */
  lemma RecoveryCompletes(s: State) returns (es: seq<Event>)
    requires s.phase.Down?
    ensures Valid(s, es) && Enabled(Exec(s, es), Ready) && forall e :: e in es ==> Recovers(e)
  {
    var listed := Listing(s.db.pending.Keys);
    var s1 := Step(s, Restart(listed));
    RecoveryRuns(s1);
    RepeatHas(Recover, AllCalls(s1));
    Then(s, Restart(listed), Repeat(Recover, AllCalls(s1)));
    es := [Restart(listed)] + Repeat(Recover, AllCalls(s1));
  }

  lemma {:induction false} RepeatHas(e: Event, n: nat)
    ensures forall f :: f in Repeat(e, n) ==> f == e
  {
    if n > 0 { RepeatHas(e, n - 1); }
  }
}
