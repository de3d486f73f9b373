/**
 Facts that supersede each other: `classify` and its use (crates/core/src/pipeline/conflict.rs),
 the explicit target (service/store.rs), the row that is written (pipeline/write.rs) and the
 validity filter (service/recall.rs), over sequential runs of stores and forgets.

 A clock reading comes with each store and need not go forward. The similarity of two objects,
 the check for near-duplicates and the normalised predicate come with the store too.
 */
module Supersession {
  import opened Wrappers
  import opened Text

  /** `created` and `invalid` are `created_at` and `t_invalid`; a new row has no `t_valid`. */
  datatype Row = Row(
    ns: string, semantic: bool, subject: string, relation: string, obj: string, created: int, invalid: Option<int>)

  datatype Request = Request(
    id: nat, ns: string, semantic: bool, subject: string, relation: string, obj: string, supersedes: Option<nat>)

  datatype Settings = Settings(unicode: Unicode, duplicate: real, update: real)

  datatype Classification = NoConflict | Duplicate(id: nat) | Update(id: nat) | Ambiguous(id: nat) | MultiMatch(ids: set<nat>)

  datatype Refusal =
    | NearDuplicate
    | DuplicateOf(existing: nat)
    | AmbiguousWith(existing: nat)
    | ManyMatches(all: set<nat>)
    | TargetNotFound
    | TargetElsewhere
    | TargetInvalid

  // ----- The rows

  /** The subject as the row stores it. */
  function StoredSubject(t: Settings, subject: string): string {
    Lower(t.unicode, Trim(t.unicode, subject))
  }

  /** The subject as the conflict check looks it up. */
  function SoughtSubject(t: Settings, subject: string): string {
    Trim(t.unicode, Lower(t.unicode, subject))
  }

  predicate Live(rows: map<nat, Row>, id: nat) {
    id in rows && rows[id].semantic && rows[id].invalid.None?
  }

  predicate HasKey(rows: map<nat, Row>, id: nat, subject: string, relation: string) {
    id in rows && rows[id].subject == subject && rows[id].relation == relation
  }

  /** `get_memories_by_subject_predicate`: over all namespaces. */
  function Existing(rows: map<nat, Row>, subject: string, relation: string): set<nat> {
    set id | id in rows && Live(rows, id) && HasKey(rows, id, subject, relation)
  }

  function Classify(rows: map<nat, Row>, obj: string, existing: set<nat>, ratio: real, t: Settings): Classification
    requires existing <= rows.Keys
  {
    if existing == {} then NoConflict
    else if |existing| > 1 then MultiMatch(existing)
    else
      var id := Only(existing);
      if Lower(t.unicode, Trim(t.unicode, obj)) == Lower(t.unicode, Trim(t.unicode, rows[id].obj)) || ratio >= t.duplicate then Duplicate(id)
      else if ratio < t.update then Update(id)
      else Ambiguous(id)
  }

  function Only(ids: set<nat>): (id: nat)
    requires |ids| == 1
    ensures ids == {id}
  {
    OneElement(ids);
    var id :| id in ids && ids == {id};
    id
  }

  lemma OneElement(ids: set<nat>)
    requires |ids| == 1
    ensures exists id :: id in ids && ids == {id}
  {
    var id :| id in ids;
    assert |ids - {id}| == 0;
    assert ids == {id};
  }

  /** The rows that the write retires, or why there is no write. */
  function Plan(rows: map<nat, Row>, r: Request, near: bool, ratio: real, t: Settings): Result<set<nat>, Refusal> {
    if r.supersedes.Some? then
      var target := r.supersedes.value;
      if target !in rows then Err(TargetNotFound)
      else if rows[target].ns != r.ns then Err(TargetElsewhere)
      else if rows[target].invalid.Some? then Err(TargetInvalid)
      else Ok({target})
    else if !r.semantic then (if near then Err(NearDuplicate) else Ok({}))
    else
      match Classify(rows, r.obj, Existing(rows, SoughtSubject(t, r.subject), r.relation), ratio, t)
      case NoConflict => Ok({})
      case Duplicate(id) => Err(DuplicateOf(id))
      case Update(id) => Ok({id})
      case Ambiguous(id) => Err(AmbiguousWith(id))
      case MultiMatch(ids) => Err(ManyMatches(ids))
  }

  function NewRow(r: Request, now: int, t: Settings): Row {
    Row(r.ns, r.semantic, StoredSubject(t, r.subject), r.relation, r.obj, now, None)
  }

  /** `commit_memory_write`: the new row, and `t_invalid` of the retired ones, at one instant. */
  function Written(rows: map<nat, Row>, r: Request, retires: set<nat>, now: int, t: Settings): map<nat, Row> {
    (map id | id in rows :: if id in retires then rows[id].(invalid := Some(now)) else rows[id])[r.id := NewRow(r, now, t)]
  }

  // ----- Runs

  /** `successor` is a history: which write retired a row. */
  datatype State = State(rows: map<nat, Row>, used: set<nat>, successor: map<nat, nat>, stored: map<nat, int>)

  const START := State(map[], {}, map[], map[])

  datatype Event =
    | Store(r: Request, now: int, near: bool, ratio: real)
    | Forget(id: nat)

  /** A memory's id is never used twice. */
  predicate Enabled(s: State, e: Event) {
    e.Store? ==> e.r.id !in s.used
  }

  function Step(s: State, e: Event, t: Settings): State {
    match e
    case Forget(id) => s.(rows := s.rows - {id})
    case Store(r, now, near, ratio) =>
      match Plan(s.rows, r, near, ratio, t)
      case Err(_) => s.(used := s.used + {r.id})
      case Ok(retires) =>
        Stored(s, r, retires, now, t)
  }

  function Exec(s: State, es: seq<Event>, t: Settings): State {
    if es == [] then s else Step(Exec(s, es[..|es| - 1], t), es[|es| - 1], t)
  }

  predicate Valid(s: State, es: seq<Event>, t: Settings) {
    es != [] ==> Valid(s, es[..|es| - 1], t) && Enabled(Exec(s, es[..|es| - 1], t), es[|es| - 1])
  }

  // ----- What becomes of a store

  /** The live semantic rows with the key of `r`, in any namespace. */
  function LiveOfKey(rows: map<nat, Row>, r: Request, t: Settings): set<nat> {
    set id | id in rows && rows[id].semantic && rows[id].invalid.None?
             && rows[id].subject == Lower(t.unicode, Trim(t.unicode, r.subject)) && rows[id].relation == r.relation
  }

  /** The new row is there, `retired` is invalid from the same instant on, and nothing else has changed. */
  ghost predicate Wrote(rows: map<nat, Row>, rows': map<nat, Row>, r: Request, retired: Option<nat>, now: int, t: Settings) {
    && rows'.Keys == rows.Keys + {r.id}
    && rows'[r.id] == Row(r.ns, r.semantic, Lower(t.unicode, Trim(t.unicode, r.subject)), r.relation, r.obj, now, None)
    && (forall id :: id in rows && Some(id) != retired ==> rows'[id] == rows[id])
    && (retired.Some? ==>
          && retired.value in rows && rows[retired.value].invalid.None?
          && rows'[retired.value] == rows[retired.value].(invalid := Some(now)))
  }

  /** The store is refused for this reason, and no row has changed. */
  ghost predicate RefusedWith(s: State, e: Event, t: Settings, why: Refusal)
    requires e.Store?
  {
    Plan(s.rows, e.r, e.near, e.ratio, t) == Err(why) && Step(s, e, t).rows == s.rows
  }

  ghost predicate Same(a: string, b: string, t: Settings) {
    Lower(t.unicode, Trim(t.unicode, a)) == Lower(t.unicode, Trim(t.unicode, b))
  }

  lemma KeyIsSought(rows: map<nat, Row>, r: Request, t: Settings)
    ensures Existing(rows, SoughtSubject(t, r.subject), r.relation) == LiveOfKey(rows, r, t)
  {
    LowerTrimCommute(t.unicode, r.subject);
  }

  lemma WroteIs(s: State, e: Event, t: Settings, retired: Option<nat>)
    requires e.Store? && Enabled(s, e) && s.rows.Keys <= s.used
    requires Plan(s.rows, e.r, e.near, e.ratio, t) == Ok(if retired.Some? then {retired.value} else {})
    ensures Wrote(s.rows, Step(s, e, t).rows, e.r, retired, e.now, t)
  {
    PlanIs(s.rows, e.r, e.near, e.ratio, t);
  }

  /**
   What becomes of a semantic store that names no target, by the live rows of its key: with none it is
   written, with more than one refused. One row makes it a duplicate if the objects agree, or are alike
   enough; it replaces that row if they are unlike enough; in between it is ambiguous.
   */
  lemma ConflictOutcome(s: State, e: Event, t: Settings)
    requires e.Store? && Enabled(s, e) && s.rows.Keys <= s.used && e.r.semantic && e.r.supersedes.None?
    ensures var live := LiveOfKey(s.rows, e.r, t);
            && (live == {} ==> Wrote(s.rows, Step(s, e, t).rows, e.r, None, e.now, t))
            && (|live| > 1 ==> RefusedWith(s, e, t, ManyMatches(live)))
            && (forall id :: live == {id} ==>
                  if Same(e.r.obj, s.rows[id].obj, t) || e.ratio >= t.duplicate then RefusedWith(s, e, t, DuplicateOf(id))
                  else if e.ratio < t.update then Wrote(s.rows, Step(s, e, t).rows, e.r, Some(id), e.now, t)
                  else RefusedWith(s, e, t, AmbiguousWith(id)))
  {
    var live := LiveOfKey(s.rows, e.r, t);
    KeyIsSought(s.rows, e.r, t);
    if live == {} { WroteIs(s, e, t, None); }
    forall id | live == {id}
      ensures if Same(e.r.obj, s.rows[id].obj, t) || e.ratio >= t.duplicate then RefusedWith(s, e, t, DuplicateOf(id))
              else if e.ratio < t.update then Wrote(s.rows, Step(s, e, t).rows, e.r, Some(id), e.now, t)
              else RefusedWith(s, e, t, AmbiguousWith(id))
    {
      OneConflict(s, e, t, id);
    }
  }

  lemma OneConflict(s: State, e: Event, t: Settings, id: nat)
    requires e.Store? && Enabled(s, e) && s.rows.Keys <= s.used && e.r.semantic && e.r.supersedes.None?
    requires Existing(s.rows, SoughtSubject(t, e.r.subject), e.r.relation) == {id}
    ensures id in s.rows
    ensures if Same(e.r.obj, s.rows[id].obj, t) || e.ratio >= t.duplicate then RefusedWith(s, e, t, DuplicateOf(id))
            else if e.ratio < t.update then Wrote(s.rows, Step(s, e, t).rows, e.r, Some(id), e.now, t)
            else RefusedWith(s, e, t, AmbiguousWith(id))
  {
    assert id in Existing(s.rows, SoughtSubject(t, e.r.subject), e.r.relation);
    if !Same(e.r.obj, s.rows[id].obj, t) && e.ratio < t.duplicate && e.ratio < t.update { WroteIs(s, e, t, Some(id)); }
  }

  /** What becomes of a store that names a target: it replaces a valid row of its own namespace, and no other. */
  lemma TargetOutcome(s: State, e: Event, t: Settings)
    requires e.Store? && Enabled(s, e) && s.rows.Keys <= s.used && e.r.supersedes.Some?
    ensures var target := e.r.supersedes.value;
            if target !in s.rows then RefusedWith(s, e, t, TargetNotFound)
            else if s.rows[target].ns != e.r.ns then RefusedWith(s, e, t, TargetElsewhere)
            else if s.rows[target].invalid.Some? then RefusedWith(s, e, t, TargetInvalid)
            else Wrote(s.rows, Step(s, e, t).rows, e.r, Some(target), e.now, t)
  {
    var target := e.r.supersedes.value;
    if target in s.rows && s.rows[target].ns == e.r.ns && s.rows[target].invalid.None? { WroteIs(s, e, t, Some(target)); }
  }

  /** What becomes of the other stores, and of a forget. */
  lemma OtherOutcome(s: State, e: Event, t: Settings)
    requires Enabled(s, e) && s.rows.Keys <= s.used && (e.Store? ==> !e.r.semantic && e.r.supersedes.None?)
    ensures e.Store? && e.near ==> RefusedWith(s, e, t, NearDuplicate)
    ensures e.Store? && !e.near ==> Wrote(s.rows, Step(s, e, t).rows, e.r, None, e.now, t)
    ensures e.Forget? ==>
              && Step(s, e, t).rows.Keys == s.rows.Keys - {e.id}
              && forall id :: id in Step(s, e, t).rows ==> Step(s, e, t).rows[id] == s.rows[id]
  {
    if e.Store? && !e.near { WroteIs(s, e, t, None); }
  }

  // ----- One live fact per key

  /** Every subject and predicate has at most one live semantic row, in all namespaces together. */
  ghost predicate OneLive(rows: map<nat, Row>) {
    forall a, b :: Live(rows, a) && Live(rows, b) && HasKey(rows, a, rows[b].subject, rows[b].relation) ==> a == b
  }

  /** An explicit target is the live row of the new row's key, if the key has one. */
  ghost predicate NamesOwnKey(rows: map<nat, Row>, e: Event, t: Settings) {
    e.Store? && e.r.semantic && e.r.supersedes.Some? && Plan(rows, e.r, e.near, e.ratio, t).Ok? ==>
      Existing(rows, StoredSubject(t, e.r.subject), e.r.relation) <= {e.r.supersedes.value}
  }

  /**
   One store or forget keeps one live row per key exactly if an explicit target is the live row of
   the key. For the others it needs the subject to be looked up as it is stored.
   */
  lemma KeepsOneLiveIff(s: State, e: Event, t: Settings)
    requires OneLive(s.rows) && Enabled(s, e) && s.rows.Keys <= s.used
    ensures OneLive(Step(s, e, t).rows) <==> NamesOwnKey(s.rows, e, t)
  {
    if e.Store? && e.r.semantic && Plan(s.rows, e.r, e.near, e.ratio, t).Ok? {
      LiveRowsAfter(s, e, t);
      RetiresItsKeyIff(s, e, t);
    } else {
      NoNewLiveRow(s, e, t);
    }
  }

  /** The conflict check finds what it has to retire, since it looks the subject up as it is stored. */
  lemma RetiresItsKeyIff(s: State, e: Event, t: Settings)
    requires e.Store? && e.r.semantic && Plan(s.rows, e.r, e.near, e.ratio, t).Ok?
    ensures Existing(s.rows, StoredSubject(t, e.r.subject), e.r.relation) <= Plan(s.rows, e.r, e.near, e.ratio, t).value
            <==> NamesOwnKey(s.rows, e, t)
  {
    LowerTrimCommute(t.unicode, e.r.subject);
  }

  lemma NoNewLiveRow(s: State, e: Event, t: Settings)
    requires OneLive(s.rows) && Enabled(s, e) && s.rows.Keys <= s.used
    requires !(e.Store? && e.r.semantic && Plan(s.rows, e.r, e.near, e.ratio, t).Ok?)
    ensures OneLive(Step(s, e, t).rows)
  {
    var rows' := Step(s, e, t).rows;
    forall a | Live(rows', a) ensures Live(s.rows, a) && rows'[a] == s.rows[a] {
      if e.Store? && Plan(s.rows, e.r, e.near, e.ratio, t).Ok? { assert a in Written(s.rows, e.r, Plan(s.rows, e.r, e.near, e.ratio, t).value, e.now, t); }
    }
  }

  /** After a semantic write there is one live row per key just if it has retired all others of its key. */
  lemma LiveRowsAfter(s: State, e: Event, t: Settings)
    requires OneLive(s.rows) && Enabled(s, e) && s.rows.Keys <= s.used
    requires e.Store? && e.r.semantic && Plan(s.rows, e.r, e.near, e.ratio, t).Ok?
    ensures OneLive(Step(s, e, t).rows) <==>
              Existing(s.rows, StoredSubject(t, e.r.subject), e.r.relation) <= Plan(s.rows, e.r, e.near, e.ratio, t).value
  {
    var rows', retires := Step(s, e, t).rows, Plan(s.rows, e.r, e.near, e.ratio, t).value;
    var existing := Existing(s.rows, StoredSubject(t, e.r.subject), e.r.relation);
    assert Live(rows', e.r.id) && HasKey(rows', e.r.id, StoredSubject(t, e.r.subject), e.r.relation);
    assert forall a :: a != e.r.id && Live(rows', a) ==> Live(s.rows, a) && a !in retires;
    if a :| a in existing && a !in retires {
      assert Live(rows', a) && HasKey(rows', a, rows'[e.r.id].subject, rows'[e.r.id].relation);
    }
  }

  ghost predicate AllNameOwnKey(es: seq<Event>, t: Settings) {
    es != [] ==> AllNameOwnKey(es[..|es| - 1], t) && NamesOwnKey(Exec(START, es[..|es| - 1], t).rows, es[|es| - 1], t)
  }

  lemma {:induction false} RowsAreUsed(es: seq<Event>, t: Settings)
    requires Valid(START, es, t)
    ensures var s := Exec(START, es, t); s.rows.Keys <= s.used
  {
    if es != [] { RowsAreUsed(es[..|es| - 1], t); }
  }

  /** Of every run from an empty database: one live row per key all along, exactly if all explicit targets fit. */
  lemma {:induction false} OneLivePerKey(es: seq<Event>, t: Settings)
    requires Valid(START, es, t)
    ensures (forall n: nat :: n <= |es| ==> OneLive(Exec(START, es[..n], t).rows)) <==> AllNameOwnKey(es, t)
  {
    if es != [] {
      var n := |es| - 1;
      OneLivePerKey(es[..n], t);
      RowsAreUsed(es[..n], t);
      assert forall k: nat :: k <= n ==> es[..n][..k] == es[..k];
      assert es[..n + 1] == es;
      if OneLive(Exec(START, es[..n], t).rows) { KeepsOneLiveIff(Exec(START, es[..n], t), es[n], t); }
      assert (forall k: nat :: k <= n + 1 ==> OneLive(Exec(START, es[..k], t).rows)) <==>
             (forall k: nat :: k <= n ==> OneLive(Exec(START, es[..n][..k], t).rows)) && OneLive(Exec(START, es, t).rows);
    } else {
      assert es[..0] == [];
    }
  }

  // ----- The validity filter

  /** What recall lets through, for an `as_of` instant or for now. */
  predicate Passes(row: Row, asOf: Option<int>, includeInvalidated: bool) {
    if asOf.None? then includeInvalidated || row.invalid.None?
    else
      && row.created <= asOf.value
      && (includeInvalidated || row.invalid.None? || row.invalid.value > asOf.value)
  }

  /** What `invalid` and `created` say is what happened: a row is invalid from its successor's store on. */
  ghost predicate Linked(s: State) {
    && s.stored.Keys <= s.used && s.successor.Keys <= s.used
    && (forall id :: id in s.rows ==> id in s.stored && s.rows[id].created == s.stored[id])
    && (forall id :: id in s.successor ==> s.successor[id] in s.stored)
    && (forall id :: id in s.rows ==>
          s.rows[id].invalid == if id in s.successor then Some(s.stored[s.successor[id]]) else None)
    && (forall a, b :: a in s.successor && b in s.successor && s.successor[a] == s.successor[b] ==> a == b)
  }

  lemma StepKeepsLinked(s: State, e: Event, t: Settings)
    requires Linked(s) && Enabled(s, e)
    ensures Linked(Step(s, e, t))
    // a row that has been retired stays so, by the same write
    ensures forall id :: id in s.successor ==> id in Step(s, e, t).successor && Step(s, e, t).successor[id] == s.successor[id]
  {
    match e
    case Forget(_) =>
    case Store(r, _, near, ratio) =>
      if Plan(s.rows, r, near, ratio, t).Ok? { WriteKeepsLinked(s, e, t); }
  }

  lemma WriteKeepsLinked(s: State, e: Event, t: Settings)
    requires Linked(s) && Enabled(s, e) && e.Store? && Plan(s.rows, e.r, e.near, e.ratio, t).Ok?
    ensures Linked(Step(s, e, t))
    ensures forall id :: id in s.successor ==> id in Step(s, e, t).successor && Step(s, e, t).successor[id] == s.successor[id]
  {
    var retires := Plan(s.rows, e.r, e.near, e.ratio, t).value;
    PlanIs(s.rows, e.r, e.near, e.ratio, t);
    RetiringKeepsLinked(s, e.r, retires, e.now, t);
  }

  /** The state after a write that retires `retires`. */
  function Stored(s: State, r: Request, retires: set<nat>, now: int, t: Settings): State {
    State(Written(s.rows, r, retires, now, t), s.used + {r.id},
          map id | id in s.successor.Keys + retires :: if id in retires then r.id else s.successor[id],
          s.stored[r.id := now])
  }

  lemma RetiringKeepsLinked(s: State, r: Request, retires: set<nat>, now: int, t: Settings)
    requires Linked(s) && r.id !in s.used
    requires forall id :: id in retires ==> id in s.rows && s.rows[id].invalid.None?
    requires forall a, b :: a in retires && b in retires ==> a == b
    ensures Linked(Stored(s, r, retires, now, t))
    ensures forall id :: id in s.successor ==>
              id in Stored(s, r, retires, now, t).successor && Stored(s, r, retires, now, t).successor[id] == s.successor[id]
  {
  }

  /** A write retires at most one row, and that was valid. */
  lemma PlanIs(rows: map<nat, Row>, r: Request, near: bool, ratio: real, t: Settings)
    requires Plan(rows, r, near, ratio, t).Ok?
    ensures forall id :: id in Plan(rows, r, near, ratio, t).value ==> id in rows && rows[id].invalid.None?
    ensures forall a, b :: a in Plan(rows, r, near, ratio, t).value && b in Plan(rows, r, near, ratio, t).value ==> a == b
  {
  }

  lemma {:induction false} RunIsLinked(es: seq<Event>, t: Settings)
    requires Valid(START, es, t)
    ensures Linked(Exec(START, es, t))
  {
    if es != [] {
      var n := |es| - 1;
      RunIsLinked(es[..n], t);
      StepKeepsLinked(Exec(START, es[..n], t), es[n], t);
    }
  }

  /** Whatever else happens, a row's one successor stays its one successor. */
  lemma OneSuccessor(es: seq<Event>, e: Event, t: Settings, id: nat)
    requires Valid(START, es + [e], t) && id in Exec(START, es, t).successor
    ensures id in Exec(START, es + [e], t).successor
    ensures Exec(START, es + [e], t).successor[id] == Exec(START, es, t).successor[id]
  {
    assert (es + [e])[..|es|] == es;
    RunIsLinked(es, t);
    StepKeepsLinked(Exec(START, es, t), e, t);
  }

  /**
   Over all runs, which rows recall lets through, said by the stores: for an instant, those stored by
   then and, unless invalidated ones are asked for, not superseded by then; for now, those not superseded.
   */
  lemma PassesIff(es: seq<Event>, t: Settings, id: nat, at: int)
    requires Valid(START, es, t) && id in Exec(START, es, t).rows
    ensures var s := Exec(START, es, t);
            var row := s.rows[id];
            && id in s.stored && (id in s.successor ==> s.successor[id] in s.stored)
            && (Passes(row, Some(at), true) <==> s.stored[id] <= at)
            && (Passes(row, Some(at), false) <==>
                  s.stored[id] <= at && (id in s.successor ==> at < s.stored[s.successor[id]]))
            && Passes(row, None, true)
            && (Passes(row, None, false) <==> id !in s.successor)
  {
    RunIsLinked(es, t);
  }

  // ----- Chains

  /** The write of `b` has retired `a`. */
  predicate Succeeds(s: State, a: nat, b: nat) {
    a in s.successor && s.successor[a] == b
  }

  /** The rows `chain`, each superseded by the next, and the last one valid. */
  ghost predicate Chain(s: State, chain: seq<nat>) {
    && chain != []
    && (forall i :: 0 <= i < |chain| ==> chain[i] in s.rows)
    && (forall i, j :: 0 <= i && j == i + 1 && j < |chain| ==> Succeeds(s, chain[i], chain[j]))
    && chain[|chain| - 1] !in s.successor
  }

  /** How many of the first `n` rows of the chain pass. */
  function Passing(rows: map<nat, Row>, chain: seq<nat>, n: nat, at: int): nat
    requires n <= |chain| && forall i :: 0 <= i < |chain| ==> chain[i] in rows
  {
    if n == 0 then 0
    else Passing(rows, chain, n - 1, at) + if Passes(rows[chain[n - 1]], Some(at), false) then 1 else 0
  }

  /** How many of the first `n` rows were stored after `at` and superseded at or before it. */
  function Backward(rows: map<nat, Row>, chain: seq<nat>, n: nat, at: int): nat
    requires n <= |chain| && forall i :: 0 <= i < |chain| ==> chain[i] in rows
  {
    if n == 0 then 0
    else
      var row := rows[chain[n - 1]];
      Backward(rows, chain, n - 1, at) +
      if row.created > at && row.invalid.Some? && row.invalid.value <= at then 1 else 0
  }

  /** Time goes up through an instant once more often than down. */
  lemma {:induction false} PassingIs(s: State, chain: seq<nat>, n: nat, at: int)
    requires Linked(s) && Chain(s, chain) && n < |chain| && s.rows[chain[0]].created <= at
    ensures Passing(s.rows, chain, n, at) ==
            Backward(s.rows, chain, n, at) + if s.rows[chain[n]].created > at then 1 else 0
  {
    if n > 0 {
      PassingIs(s, chain, n - 1, at);
      assert Succeeds(s, chain[n - 1], chain[n]);
    }
  }

  lemma {:induction false} BackwardIsZero(rows: map<nat, Row>, chain: seq<nat>, n: nat, at: int)
    requires n <= |chain| && forall i :: 0 <= i < |chain| ==> chain[i] in rows
    ensures Backward(rows, chain, n, at) == 0 <==>
            forall i :: 0 <= i < n ==>
              !(rows[chain[i]].created > at && rows[chain[i]].invalid.Some? && rows[chain[i]].invalid.value <= at)
  {
    if n > 0 { BackwardIsZero(rows, chain, n - 1, at); }
  }

  /** The clock readings of a chain never go back to below one that is after the first. */
  ghost predicate ForwardFromFirst(rows: map<nat, Row>, chain: seq<nat>)
    requires forall i :: 0 <= i < |chain| ==> chain[i] in rows
  {
    forall i, j :: 0 <= i && j == i + 1 && j < |chain| ==>
      rows[chain[i]].created <= rows[chain[j]].created || rows[chain[i]].created <= rows[chain[0]].created
  }

  /** At one instant: one row passes, unless some step of the chain goes back over it. */
  lemma OnePassesAt(s: State, chain: seq<nat>, at: int)
    requires Linked(s) && Chain(s, chain) && s.rows[chain[0]].created <= at
    ensures Passing(s.rows, chain, |chain|, at) >= 1
    ensures Passing(s.rows, chain, |chain|, at) == 1 <==>
            forall i, j :: 0 <= i && j == i + 1 && j < |chain| ==> !(s.rows[chain[j]].created <= at < s.rows[chain[i]].created)
  {
    var n := |chain| - 1;
    PassingIs(s, chain, n, at);
    BackwardIsZero(s.rows, chain, n, at);
    forall i, j | 0 <= i && j == i + 1 && j < |chain| ensures s.rows[chain[i]].invalid == Some(s.rows[chain[j]].created) {
      assert Succeeds(s, chain[i], chain[j]);
    }
    if i, j :| 0 <= i && j == i + 1 && j < |chain| && s.rows[chain[j]].created <= at < s.rows[chain[i]].created {
      assert s.rows[chain[i]].invalid == Some(s.rows[chain[j]].created);
    }
    if Passing(s.rows, chain, |chain|, at) != 1 {
      var i :| 0 <= i < n && s.rows[chain[i]].created > at && s.rows[chain[i]].invalid.Some?
               && s.rows[chain[i]].invalid.value <= at;
      var j := i + 1;
      assert s.rows[chain[j]].created <= at < s.rows[chain[i]].created;
    }
  }

  /**
   A supersession chain tiles the time from its first row on: exactly one of its rows passes the
   filter for every instant, if and only if its clock readings go forward; there is never a gap.
   */
  lemma ChainTilesTime(es: seq<Event>, t: Settings, chain: seq<nat>)
    requires Valid(START, es, t) && Chain(Exec(START, es, t), chain)
    ensures var rows := Exec(START, es, t).rows;
            (forall at: int :: rows[chain[0]].created <= at ==> Passing(rows, chain, |chain|, at) == 1)
            <==> ForwardFromFirst(rows, chain)
    ensures var rows := Exec(START, es, t).rows;
            forall at: int :: rows[chain[0]].created <= at ==> Passing(rows, chain, |chain|, at) >= 1
  {
    var s := Exec(START, es, t);
    RunIsLinked(es, t);
    ChainTiles(s, chain);
  }

  lemma ChainTiles(s: State, chain: seq<nat>)
    requires Linked(s) && Chain(s, chain)
    ensures (forall at: int :: s.rows[chain[0]].created <= at ==> Passing(s.rows, chain, |chain|, at) == 1)
            <==> ForwardFromFirst(s.rows, chain)
    ensures forall at: int :: s.rows[chain[0]].created <= at ==> Passing(s.rows, chain, |chain|, at) >= 1
  {
    forall at: int ensures s.rows[chain[0]].created <= at ==> Passing(s.rows, chain, |chain|, at) >= 1 {
      if s.rows[chain[0]].created <= at { OnePassesAt(s, chain, at); }
    }
    if ForwardFromFirst(s.rows, chain) {
      forall at: int ensures s.rows[chain[0]].created <= at ==> Passing(s.rows, chain, |chain|, at) == 1 {
        if s.rows[chain[0]].created <= at { OnePassesAt(s, chain, at); }
      }
    } else {
      var i, j :| 0 <= i && j == i + 1 && j < |chain| && s.rows[chain[i]].created > s.rows[chain[j]].created
               && s.rows[chain[i]].created > s.rows[chain[0]].created;
      var a, b := s.rows[chain[j]].created, s.rows[chain[0]].created;
      var at := if a < b then b else a;
      OnePassesAt(s, chain, at);
      assert Passing(s.rows, chain, |chain|, at) != 1;
    }
  }

  /** And for now, it is the last one alone. */
  lemma LastOfChainIsCurrent(es: seq<Event>, t: Settings, chain: seq<nat>, i: nat)
    requires Valid(START, es, t) && Chain(Exec(START, es, t), chain) && i < |chain|
    ensures Passes(Exec(START, es, t).rows[chain[i]], None, false) <==> i == |chain| - 1
  {
    RunIsLinked(es, t);
    LastIsCurrent(Exec(START, es, t), chain, i);
  }

  lemma LastIsCurrent(s: State, chain: seq<nat>, i: nat)
    requires Linked(s) && Chain(s, chain) && i < |chain|
    ensures Passes(s.rows[chain[i]], None, false) <==> i == |chain| - 1
  {
    if i < |chain| - 1 {
      var j := i + 1;
      assert Succeeds(s, chain[i], chain[j]);
    }
  }

  // ----- Runs in which the two laws fail

  ghost predicate Leads(es: seq<Event>, s: State, t: Settings) {
    Valid(START, es, t) && Exec(START, es, t) == s
  }

  lemma Then(es: seq<Event>, s: State, e: Event, t: Settings) returns (es': seq<Event>, s': State)
    requires Leads(es, s, t) && Enabled(s, e)
    ensures Leads(es', s', t) && s' == Step(s, e, t)
  {
    es', s' := es + [e], Step(s, e, t);
    assert es'[..|es|] == es;
  }

  function Fact(id: nat, semantic: bool, relation: string, supersedes: Option<nat>): Request {
    Request(id, [], semantic, [], relation, [], supersedes)
  }

  lemma TwoKeys(t: Settings) returns (es: seq<Event>, s: State)
    ensures Leads(es, s, t) && s.used == {1, 2}
    ensures s.rows == map[1 := NewRow(Fact(1, true, "p", None), 0, t), 2 := NewRow(Fact(2, true, "q", None), 0, t)]
  {
    es, s := FirstKey(t);
    assert Existing(s.rows, SoughtSubject(t, []), "q") == {};
    es, s := Then(es, s, Store(Fact(2, true, "q", None), 0, false, 0.0), t);
  }

  lemma FirstKey(t: Settings) returns (es: seq<Event>, s: State)
    ensures Leads(es, s, t) && s.used == {1} && s.rows == map[1 := NewRow(Fact(1, true, "p", None), 0, t)]
  {
    assert Existing(START.rows, SoughtSubject(t, []), "p") == {};
    es, s := Then([], START, Store(Fact(1, true, "p", None), 0, false, 0.0), t);
  }

  /** A store that names the live row of another key leaves two live rows of its own. */
  lemma TwoLiveRows(t: Settings) returns (es: seq<Event>)
    ensures Valid(START, es, t) && !OneLive(Exec(START, es, t).rows)
  {
    var s: State;
    es, s := TwoKeys(t);
    es, s := Then(es, s, Store(Fact(3, true, "p", Some(2)), 0, false, 0.0), t);
    assert Live(s.rows, 1) && Live(s.rows, 3) && HasKey(s.rows, 1, s.rows[3].subject, s.rows[3].relation);
  }

  function Supersede(id: nat, target: nat, now: int): Event {
    Store(Fact(id, false, [], Some(target)), now, false, 0.0)
  }

  lemma SupersedeIs(s: State, id: nat, target: nat, now: int, t: Settings)
    requires target in s.rows && s.rows[target].ns == [] && s.rows[target].invalid.None? && id !in s.rows
    ensures var s' := Step(s, Supersede(id, target, now), t);
            && s'.rows.Keys == s.rows.Keys + {id} && s'.used == s.used + {id} && s'.successor == s.successor[target := id]
            && s'.rows[target] == s.rows[target].(invalid := Some(now))
            && s'.rows[id] == NewRow(Fact(id, false, [], Some(target)), now, t)
            && forall other :: other in s.rows && other != target ==> s'.rows[other] == s.rows[other]
  {
  }

  lemma OneStore(t: Settings) returns (es: seq<Event>, s: State)
    ensures Leads(es, s, t) && s.used == {1} && s.successor == map[]
    ensures s.rows == map[1 := NewRow(Fact(1, false, [], None), 0, t)]
  {
    es, s := Then([], START, Store(Fact(1, false, [], None), 0, false, 0.0), t);
  }

  lemma TwoStores(t: Settings) returns (es: seq<Event>, s: State)
    ensures Leads(es, s, t) && s.used == {1, 2} && s.successor == map[1 := 2] && s.rows.Keys == {1, 2}
    ensures (s.rows[1].created, s.rows[1].invalid) == (0, Some(10))
    ensures s.rows[2] == NewRow(Fact(2, false, [], Some(1)), 10, t)
  {
    es, s := OneStore(t);
    SupersedeIs(s, 2, 1, 10, t);
    es, s := Then(es, s, Supersede(2, 1, 10), t);
  }

  /** Three stores, each superseding the one before, and the clock goes back for the last. */
  lemma ThreeStores(t: Settings) returns (es: seq<Event>, s: State)
    ensures Leads(es, s, t)
    ensures s.rows.Keys == {1, 2, 3} && s.successor == map[1 := 2, 2 := 3]
    ensures (s.rows[1].created, s.rows[1].invalid) == (0, Some(10))
    ensures (s.rows[2].created, s.rows[2].invalid) == (10, Some(5))
    ensures (s.rows[3].created, s.rows[3].invalid) == (5, None)
  {
    es, s := TwoStores(t);
    SupersedeIs(s, 3, 2, 5, t);
    es, s := Then(es, s, Supersede(3, 2, 5), t);
  }

  /** When the clock goes back, two rows of a chain can pass for one instant. */
  lemma TwoRowsPass(t: Settings) returns (es: seq<Event>)
    ensures Valid(START, es, t) && Chain(Exec(START, es, t), [1, 2, 3])
    ensures Passing(Exec(START, es, t).rows, [1, 2, 3], 3, 5) == 2
  {
    var s: State;
    es, s := ThreeStores(t);
    var rows, chain := s.rows, [1, 2, 3];
    assert Passing(rows, chain, 1, 5) == 1 && Passing(rows, chain, 2, 5) == 1;
  }
}
