/**
 Recalls, stores and forgets that share the result cache, interleaved at every await
 (crates/core/src/service/recall.rs, store.rs and forget.rs). A memory's id is never used twice,
 and a search in a namespace finds only that namespace's ids.
 */
module CacheRuns {
  import opened Wrappers
  import opened Cache

  /** Whether the row is valid now: its `t_invalid` is never taken back. */
  datatype Row = Row(valid: bool)

  /** A write whose rows have changed; `ns` is the namespace whose generation it bumps. */
  datatype Writer = Writer(ns: string, deleted: set<nat>, retired: set<nat>, bumped: bool)

  datatype Stage =
    | Begun
    | HasGeneration(generation: nat)
    | Looking(generation: nat, current: nat)
    | Missed(generation: nat)
    | Fetched(generation: nat, found: set<nat>)
    | Returned(results: set<nat>)

  /** `avoid` and `avoidIfPlain` are what had been acknowledged when the recall began. */
  datatype Recall = Recall(key: Key, stage: Stage, avoid: set<nat>, avoidIfPlain: set<nat>)

  datatype State = State(
    rows: map<nat, Row>,
    generations: map<string, nat>,
    cache: map<Key, Entry>,
    recalls: map<nat, Recall>,
    writers: map<nat, Writer>,
    // history
    home: map<nat, string>,
    deletedAt: map<nat, nat>,  // the generation of its namespace when its row was deleted,
    retiredAt: map<nat, nat>,  // and when it was deleted or invalidated, whichever came first
    forgotten: set<nat>,       // acknowledged
    superseded: set<nat>)      // acknowledged by a write in the same namespace

  const START := State(map[], map[], map[], map[], map[], map[], map[], map[], {}, {})

  datatype Event =
    // writers
    | Commit(w: nat, id: nat, ns: string, retires: set<nat>)
    | Delete(w: nat, id: nat)
    | Bump(w: nat)
    | Acknowledge(w: nat)
    | Abort(w: nat)
    // recalls
    | Begin(r: nat, key: Key)
    | ReadGeneration(r: nat)
    | LookUp(r: nat)
    | Peek(r: nat)
    | Fetch(r: nat, found: set<nat>)
    | PutAndReturn(r: nat, results: set<nat>)
    // the LRU drops what it likes
    | Evict(key: Key)

  function Generation(s: State, ns: string): nat {
    if ns in s.generations then s.generations[ns] else 0
  }

  /** What the filter after the fetch lets through, at most. */
  predicate Visible(s: State, key: Key, id: nat) {
    id in s.rows && id in s.home && s.home[id] == key.ns && (key.plain ==> s.rows[id].valid)
  }

  predicate Enabled(s: State, e: Event) {
    match e
    case Commit(w, id, _, retires) => w !in s.writers && id !in s.home && retires <= s.home.Keys
    case Delete(w, id) => w !in s.writers && id in s.home
    case Bump(w) => w in s.writers && !s.writers[w].bumped
    case Acknowledge(w) => w in s.writers && s.writers[w].bumped
    case Abort(w) => w in s.writers
    case Begin(r, _) => r !in s.recalls
    case ReadGeneration(r) => r in s.recalls && s.recalls[r].stage.Begun?
    case LookUp(r) => r in s.recalls && s.recalls[r].stage.HasGeneration?
    case Peek(r) => r in s.recalls && s.recalls[r].stage.Looking?
    case Fetch(r, found) =>
      r in s.recalls && s.recalls[r].stage.Missed? && forall id :: id in found ==> Visible(s, s.recalls[r].key, id)
    case PutAndReturn(r, results) =>
      r in s.recalls && s.recalls[r].stage.Fetched? && results <= s.recalls[r].stage.found
    case Evict(_) => true
  }

  function Invalidated(rows: map<nat, Row>, ids: set<nat>): map<nat, Row> {
    map id | id in rows :: if id in ids then Row(false) else rows[id]
  }

  /** Notes of each of `ids` the generation of its namespace, if nothing is noted yet. */
  function Noted(s: State, noted: map<nat, nat>, ids: set<nat>): map<nat, nat> {
    map id | id in noted.Keys + (ids * s.home.Keys) ::
      if id in noted then noted[id] else if id in s.home then Generation(s, s.home[id]) else 0
  }

  function SetStage(s: State, r: nat, stage: Stage): State
    requires r in s.recalls
  {
    s.(recalls := s.recalls[r := s.recalls[r].(stage := stage)])
  }

  function SameNamespace(s: State, w: Writer): set<nat> {
    set id | id in w.retired && id in s.home && s.home[id] == w.ns
  }

  function Step(s: State, e: Event): State
    requires Enabled(s, e)
  {
    match e
    case Commit(w, id, ns, retires) =>
      s.(rows := Invalidated(s.rows, retires)[id := Row(true)], home := s.home[id := ns],
         retiredAt := Noted(s, s.retiredAt, retires),
         writers := s.writers[w := Writer(ns, {}, retires, false)])
    case Delete(w, id) =>
      s.(rows := s.rows - {id},
         deletedAt := Noted(s, s.deletedAt, {id}), retiredAt := Noted(s, s.retiredAt, {id}),
         writers := s.writers[w := Writer(s.home[id], {id}, {}, false)])
    case Bump(w) =>
      var ns := s.writers[w].ns;
      s.(generations := s.generations[ns := Generation(s, ns) + 1],
         writers := s.writers[w := s.writers[w].(bumped := true)])
    case Acknowledge(w) =>
      s.(forgotten := s.forgotten + s.writers[w].deleted,
         superseded := s.superseded + SameNamespace(s, s.writers[w]),
         writers := s.writers - {w})
    case Abort(w) => s.(writers := s.writers - {w})
    case Begin(r, key) => s.(recalls := s.recalls[r := Recall(key, Begun, s.forgotten, s.superseded)])
    case ReadGeneration(r) => SetStage(s, r, HasGeneration(Generation(s, s.recalls[r].key.ns)))
    case LookUp(r) =>
      SetStage(s, r, Looking(s.recalls[r].stage.generation, Generation(s, s.recalls[r].key.ns)))
    case Peek(r) =>
      var Recall(key, stage, _, _) := s.recalls[r];
      if key in s.cache && s.cache[key].generation == stage.current then SetStage(s, r, Returned(s.cache[key].results))
      else SetStage(s, r, Missed(stage.generation))
    case Fetch(r, found) =>
      if found == {} then SetStage(s, r, Returned({}))
      else SetStage(s, r, Fetched(s.recalls[r].stage.generation, found))
    case PutAndReturn(r, results) =>
      SetStage(s, r, Returned(results)).(
        cache := s.cache[s.recalls[r].key := Entry(s.recalls[r].stage.generation, results)])
    case Evict(key) => s.(cache := s.cache - {key})
  }

  ghost predicate Valid(s: State, es: seq<Event>)
    decreases |es|
  {
    es != [] ==> Enabled(s, es[0]) && Valid(Step(s, es[0]), es[1..])
  }

  ghost function Exec(s: State, es: seq<Event>): State
    requires Valid(s, es)
    decreases |es|
  {
    if es == [] then s else Exec(Step(s, es[0]), es[1..])
  }

  // ----- The invariant

  /**
   A result computed under `generation` for `key` may hold `id`: its row was there, and valid if
   that was asked for, at some time after that generation was read.
   */
  predicate Justified(s: State, key: Key, generation: nat, id: nat) {
    && id in s.home && s.home[id] == key.ns
    && (id in s.deletedAt ==> generation <= s.deletedAt[id])
    && (key.plain && id in s.retiredAt ==> generation <= s.retiredAt[id])
  }

  /** The namespace's generation has moved on since the row was deleted. */
  predicate Past(s: State, noted: map<nat, nat>, id: nat) {
    id in s.home && id in noted && noted[id] < Generation(s, s.home[id])
  }

  predicate PastAt(s: State, noted: map<nat, nat>, id: nat, current: nat) {
    id in s.home && id in noted && noted[id] < current
  }

  ghost predicate RecallFits(s: State, recall: Recall) {
    var Recall(key, stage, avoid, avoidIfPlain) := recall;
    && avoid <= s.forgotten && avoidIfPlain <= s.superseded
    && match stage
       case Begun => true
       case HasGeneration(g) => g <= Generation(s, key.ns)
       case Looking(g, current) =>
         && g <= current <= Generation(s, key.ns)
         && (forall id :: id in avoid && id in s.home && s.home[id] == key.ns ==> PastAt(s, s.deletedAt, id, current))
         && (forall id :: id in avoidIfPlain && id in s.home && s.home[id] == key.ns ==> PastAt(s, s.retiredAt, id, current))
       case Missed(g) => g <= Generation(s, key.ns)
       case Fetched(g, found) =>
         && g <= Generation(s, key.ns)
         && (forall id :: id in found ==> Justified(s, key, g, id) && id !in avoid && (key.plain ==> id !in avoidIfPlain))
       case Returned(results) =>
         forall id :: id in results ==> id !in avoid && (key.plain ==> id !in avoidIfPlain)
  }

  ghost predicate EntryFits(s: State, key: Key, entry: Entry) {
    entry.generation <= Generation(s, key.ns) && forall id :: id in entry.results ==> Justified(s, key, entry.generation, id)
  }

  predicate IdFits(s: State, id: nat) {
    && (id in s.home && id !in s.rows ==> id in s.deletedAt)
    && (id in s.rows ==> id in s.home && id !in s.deletedAt && (s.rows[id].valid ==> id !in s.retiredAt))
    && (id in s.rows && !s.rows[id].valid ==> id in s.retiredAt)
    && (id in s.deletedAt ==> id in s.home && id in s.retiredAt && s.deletedAt[id] <= Generation(s, s.home[id]))
    && (id in s.retiredAt ==> id in s.home && s.retiredAt[id] <= Generation(s, s.home[id]))
    && (id in s.forgotten ==> Past(s, s.deletedAt, id))
    && (id in s.superseded ==> Past(s, s.retiredAt, id))
  }

  ghost predicate WriterFits(s: State, w: Writer) {
    && (forall id :: id in w.deleted ==>
          id in s.home && s.home[id] == w.ns && id in s.deletedAt && (w.bumped ==> Past(s, s.deletedAt, id)))
    && (forall id :: id in w.retired ==> id in s.home)
    && (forall id :: id in w.retired && s.home[id] == w.ns ==>
          id in s.retiredAt && (w.bumped ==> Past(s, s.retiredAt, id)))
  }

  ghost predicate Inv(s: State) {
    && (forall id :: IdFits(s, id))
    && (forall w :: w in s.writers ==> WriterFits(s, s.writers[w]))
    && (forall key :: key in s.cache ==> EntryFits(s, key, s.cache[key]))
    && (forall r :: r in s.recalls ==> RecallFits(s, s.recalls[r]))
  }

  // ----- Every step keeps it

  /** What a write may do to what the invariant reads. */
  ghost predicate Grows(s: State, s': State) {
    && s.forgotten <= s'.forgotten && s.superseded <= s'.superseded
    && (forall ns :: Generation(s, ns) <= Generation(s', ns))
    && (forall id :: id in s.home ==> id in s'.home && s'.home[id] == s.home[id])
    && (forall id :: id in s'.home && id !in s.home ==> id !in s.forgotten && id !in s.superseded)
    && GrowsNotes(s, s', s.deletedAt, s'.deletedAt) && GrowsNotes(s, s', s.retiredAt, s'.retiredAt)
  }

  /** A new note is of the current generation. */
  ghost predicate GrowsNotes(s: State, s': State, notes: map<nat, nat>, notes': map<nat, nat>) {
    && (forall id :: id in notes ==> id in notes' && notes'[id] == notes[id])
    && (forall id :: id in notes' && id !in notes && id in s.home ==> notes'[id] >= Generation(s, s.home[id]))
  }

  lemma JustifiedStays(s: State, s': State, key: Key, generation: nat, id: nat)
    requires Grows(s, s') && Justified(s, key, generation, id) && generation <= Generation(s, key.ns)
    ensures Justified(s', key, generation, id)
  {
  }

  lemma RecallStays(s: State, s': State, recall: Recall)
    requires Grows(s, s') && RecallFits(s, recall)
    ensures RecallFits(s', recall)
  {
    match recall.stage
    case Fetched(g, found) =>
      forall id | id in found ensures Justified(s', recall.key, g, id) { JustifiedStays(s, s', recall.key, g, id); }
    case Looking(g, current) =>
      forall id | id in recall.avoid && id in s'.home && s'.home[id] == recall.key.ns
        ensures PastAt(s', s'.deletedAt, id, current)
      {
        assert PastAt(s, s.deletedAt, id, current);
      }
      forall id | id in recall.avoidIfPlain && id in s'.home && s'.home[id] == recall.key.ns
        ensures PastAt(s', s'.retiredAt, id, current)
      {
        assert PastAt(s, s.retiredAt, id, current);
      }
    case _ =>
  }

  lemma EntryStays(s: State, s': State, key: Key, entry: Entry)
    requires Grows(s, s') && EntryFits(s, key, entry)
    ensures EntryFits(s', key, entry)
  {
    forall id | id in entry.results ensures Justified(s', key, entry.generation, id) {
      JustifiedStays(s, s', key, entry.generation, id);
    }
  }

  predicate IsWrite(e: Event) {
    e.Commit? || e.Delete? || e.Bump? || e.Acknowledge? || e.Abort?
  }

  lemma WriteGrows(s: State, e: Event)
    requires Inv(s) && Enabled(s, e) && IsWrite(e)
    ensures Grows(s, Step(s, e))
  {
    if e.Commit? { assert IdFits(s, e.id); }
  }

  lemma WriteKeepsId(s: State, e: Event, id: nat)
    requires Inv(s) && Enabled(s, e) && IsWrite(e)
    ensures IdFits(Step(s, e), id)
  {
    assert IdFits(s, id);
    if e.Acknowledge? { assert WriterFits(s, s.writers[e.w]); }
  }

  lemma WriterStays(s: State, s': State, w: Writer)
    requires Grows(s, s') && WriterFits(s, w)
    ensures WriterFits(s', w)
  {
    forall id | id in w.deleted && w.bumped ensures Past(s', s'.deletedAt, id) { assert Past(s, s.deletedAt, id); }
    forall id | id in w.retired && s.home[id] == w.ns && w.bumped ensures Past(s', s'.retiredAt, id) {
      assert Past(s, s.retiredAt, id);
    }
  }

  lemma WriteKeepsWriter(s: State, e: Event, w: nat)
    requires Inv(s) && Enabled(s, e) && IsWrite(e) && w in Step(s, e).writers
    ensures WriterFits(Step(s, e), Step(s, e).writers[w])
  {
    if w in s.writers && s.writers[w] == Step(s, e).writers[w] {
      WriteGrows(s, e);
      WriterStays(s, Step(s, e), s.writers[w]);
    } else if e.Bump? {
      BumpedWriterFits(s, w);
    }
  }

  lemma BumpedWriterFits(s: State, w: nat)
    requires Inv(s) && Enabled(s, Bump(w))
    ensures WriterFits(Step(s, Bump(w)), Step(s, Bump(w)).writers[w])
  {
    var s', writer := Step(s, Bump(w)), s.writers[w];
    assert WriterFits(s, writer);
    forall id | id in writer.deleted ensures Past(s', s'.deletedAt, id) { assert IdFits(s, id); }
    forall id | id in writer.retired && s.home[id] == writer.ns ensures Past(s', s'.retiredAt, id) { assert IdFits(s, id); }
  }

  lemma WriteKeeps(s: State, e: Event)
    requires Inv(s) && Enabled(s, e) && IsWrite(e)
    ensures Inv(Step(s, e))
  {
    var s' := Step(s, e);
    WriteGrows(s, e);
    forall id ensures IdFits(s', id) { WriteKeepsId(s, e, id); }
    forall w | w in s'.writers ensures WriterFits(s', s'.writers[w]) { WriteKeepsWriter(s, e, w); }
    forall key | key in s'.cache ensures EntryFits(s', key, s'.cache[key]) { EntryStays(s, s', key, s.cache[key]); }
    forall r | r in s'.recalls ensures RecallFits(s', s'.recalls[r]) { RecallStays(s, s', s.recalls[r]); }
  }

  /** Recalls and the cache are not read by what the invariant says of the rest. */
  lemma ReadersChange(s: State, s': State)
    requires Inv(s) && s' == s.(recalls := s'.recalls, cache := s'.cache)
    requires forall key :: key in s'.cache ==> EntryFits(s, key, s'.cache[key])
    requires forall r :: r in s'.recalls ==> RecallFits(s, s'.recalls[r])
    ensures Inv(s')
  {
    assert Grows(s, s');
    forall id ensures IdFits(s', id) { assert IdFits(s, id); }
    forall w | w in s'.writers ensures WriterFits(s', s'.writers[w]) { WriterStays(s, s', s.writers[w]); }
    forall key | key in s'.cache ensures EntryFits(s', key, s'.cache[key]) { EntryStays(s, s', key, s'.cache[key]); }
    forall r | r in s'.recalls ensures RecallFits(s', s'.recalls[r]) { RecallStays(s, s', s'.recalls[r]); }
  }

  lemma StageKeeps(s: State, r: nat, stage: Stage)
    requires Inv(s) && r in s.recalls && RecallFits(s, s.recalls[r].(stage := stage))
    ensures Inv(SetStage(s, r, stage))
  {
    ReadersChange(s, SetStage(s, r, stage));
  }

  lemma LookUpKeeps(s: State, r: nat)
    requires Inv(s) && Enabled(s, LookUp(r))
    ensures Inv(Step(s, LookUp(r)))
  {
    var Recall(key, stage, avoid, avoidIfPlain) := s.recalls[r];
    var current := Generation(s, key.ns);
    assert RecallFits(s, s.recalls[r]);
    forall id | id in avoid && id in s.home && s.home[id] == key.ns ensures PastAt(s, s.deletedAt, id, current) {
      assert IdFits(s, id);
    }
    forall id | id in avoidIfPlain && id in s.home && s.home[id] == key.ns ensures PastAt(s, s.retiredAt, id, current) {
      assert IdFits(s, id);
    }
    StageKeeps(s, r, Looking(stage.generation, current));
  }

  lemma PeekKeeps(s: State, r: nat)
    requires Inv(s) && Enabled(s, Peek(r))
    ensures Inv(Step(s, Peek(r)))
  {
    var Recall(key, stage, avoid, avoidIfPlain) := s.recalls[r];
    assert RecallFits(s, s.recalls[r]);
    if key in s.cache && s.cache[key].generation == stage.current {
      var results := s.cache[key].results;
      assert EntryFits(s, key, s.cache[key]);
      forall id | id in results ensures id !in avoid && (key.plain ==> id !in avoidIfPlain) {
        assert Justified(s, key, stage.current, id);
      }
      StageKeeps(s, r, Returned(results));
    } else {
      StageKeeps(s, r, Missed(stage.generation));
    }
  }

  lemma FetchKeeps(s: State, r: nat, found: set<nat>)
    requires Inv(s) && Enabled(s, Fetch(r, found))
    ensures Inv(Step(s, Fetch(r, found)))
  {
    var Recall(key, stage, avoid, avoidIfPlain) := s.recalls[r];
    assert RecallFits(s, s.recalls[r]);
    forall id | id in found
      ensures Justified(s, key, stage.generation, id) && id !in avoid && (key.plain ==> id !in avoidIfPlain)
    {
      assert Visible(s, key, id) && IdFits(s, id);
    }
    StageKeeps(s, r, if found == {} then Returned({}) else Fetched(stage.generation, found));
  }

  lemma PutKeeps(s: State, r: nat, results: set<nat>)
    requires Inv(s) && Enabled(s, PutAndReturn(r, results))
    ensures Inv(Step(s, PutAndReturn(r, results)))
  {
    var Recall(key, stage, _, _) := s.recalls[r];
    assert RecallFits(s, s.recalls[r]);
    assert EntryFits(s, key, Entry(stage.generation, results));
    ReadersChange(s, Step(s, PutAndReturn(r, results)));
  }

  lemma RecallKeeps(s: State, e: Event)
    requires Inv(s) && Enabled(s, e) && !IsWrite(e)
    ensures Inv(Step(s, e))
  {
    match e
    case LookUp(r) => LookUpKeeps(s, r);
    case Peek(r) => PeekKeeps(s, r);
    case Fetch(r, found) => FetchKeeps(s, r, found);
    case PutAndReturn(r, results) => PutKeeps(s, r, results);
    case Begin(_, _) => ReadersChange(s, Step(s, e));
    case ReadGeneration(r) =>
      assert RecallFits(s, s.recalls[r]);
      StageKeeps(s, r, HasGeneration(Generation(s, s.recalls[r].key.ns)));
    case Evict(_) => ReadersChange(s, Step(s, e));
  }

  lemma {:induction false} RunKeeps(s: State, es: seq<Event>)
    requires Inv(s) && Valid(s, es)
    ensures Inv(Exec(s, es))
    decreases |es|
  {
    if es != [] {
      if IsWrite(es[0]) { WriteKeeps(s, es[0]); } else { RecallKeeps(s, es[0]); }
      RunKeeps(Step(s, es[0]), es[1..]);
    }
  }

  // ----- The promises

  /**
   A recall that began when the forget of an id had been acknowledged does not return it, cached or
   not; nor, if it asks for what is valid now, one that a write in its own namespace had superseded.
   */
  lemma RecallIsFresh(es: seq<Event>, r: nat, id: nat)
    requires Valid(START, es)
    requires r in Exec(START, es).recalls && Exec(START, es).recalls[r].stage.Returned?
    requires id in Exec(START, es).recalls[r].stage.results
    ensures var recall := Exec(START, es).recalls[r];
            id !in recall.avoid && (recall.key.plain ==> id !in recall.avoidIfPlain)
  {
    RunKeeps(START, es);
    assert RecallFits(Exec(START, es), Exec(START, es).recalls[r]);
  }

  /**
   What a hit returns is still in the rows, and valid if that is asked for, but for rows whose
   writer has not yet bumped this namespace's generation since.
   */
  lemma HitsAreCurrent(es: seq<Event>, r: nat, id: nat)
    requires Valid(START, es) && Enabled(Exec(START, es), Peek(r))
    requires var s := Exec(START, es);
             var key := s.recalls[r].key;
             key in s.cache && s.cache[key].generation == s.recalls[r].stage.current == Generation(s, key.ns) &&
             id in s.cache[key].results
    ensures var s := Exec(START, es);
            var key := s.recalls[r].key;
            || Visible(s, key, id)
            || (id in s.deletedAt && s.deletedAt[id] == Generation(s, key.ns))
            || (key.plain && id in s.retiredAt && s.retiredAt[id] == Generation(s, key.ns))
  {
    RunKeeps(START, es);
    var s := Exec(START, es);
    var key := s.recalls[r].key;
    assert EntryFits(s, key, s.cache[key]) && IdFits(s, id);
  }

  /** How often the writers of a namespace bump it in a run. */
  ghost function Bumps(s: State, es: seq<Event>, ns: string): nat
    requires Valid(s, es)
    decreases |es|
  {
    if es == [] then 0
    else (if es[0].Bump? && s.writers[es[0].w].ns == ns then 1 else 0) + Bumps(Step(s, es[0]), es[1..], ns)
  }

  lemma OneBump(s: State, e: Event, ns: string)
    requires Enabled(s, e)
    ensures Generation(Step(s, e), ns) == Generation(s, ns) + if e.Bump? && s.writers[e.w].ns == ns then 1 else 0
  {
  }

  /** A generation counts the writes of its namespace, and of no other. */
  lemma {:induction false} GenerationCountsBumps(s: State, es: seq<Event>, ns: string)
    requires Valid(s, es)
    ensures Generation(Exec(s, es), ns) == Generation(s, ns) + Bumps(s, es, ns)
    decreases |es|
  {
    if es != [] {
      var s1 := Step(s, es[0]);
      OneBump(s, es[0], ns);
      GenerationCountsBumps(s1, es[1..], ns);
      assert Exec(s, es) == Exec(s1, es[1..]);
    }
  }

  /** A recall hits just if the cache holds its key under the generation of the moment of the look-up. */
  lemma HitsIffCurrent(s: State, r: nat)
    requires Enabled(s, LookUp(r))
    ensures Enabled(Step(s, LookUp(r)), Peek(r))
    ensures var key := s.recalls[r].key;
            var stage := Step(Step(s, LookUp(r)), Peek(r)).recalls[r].stage;
            if key in s.cache && s.cache[key].generation == Generation(s, key.ns) then stage == Returned(s.cache[key].results)
            else stage == Missed(s.recalls[r].stage.generation)
  {
  }

  // ----- A conflict in another namespace

  ghost predicate Leads(s: State, es: seq<Event>, s': State) {
    Valid(s, es) && Exec(s, es) == s'
  }

  lemma Then(s: State, e: Event, es: seq<Event>, s': State)
    requires Enabled(s, e) && Leads(Step(s, e), es, s')
    ensures Leads(s, [e] + es, s')
  {
    assert ([e] + es)[1..] == es;
  }

  lemma {:induction false} ThenAll(s: State, es: seq<Event>, s1: State, es1: seq<Event>, s': State)
    requires Leads(s, es, s1) && Leads(s1, es1, s')
    ensures Leads(s, es + es1, s')
    decreases |es|
  {
    if es == [] {
      assert es + es1 == es1;
    } else {
      assert (es + es1)[1..] == es[1..] + es1;
      ThenAll(Step(s, es[0]), es[1..], s1, es1, s');
    }
  }

  function Write(w: nat, id: nat, ns: string, retires: set<nat>): seq<Event> {
    [Commit(w, id, ns, retires)] + ([Bump(w)] + ([Acknowledge(w)] + []))
  }

  function Written(s: State, w: nat, id: nat, ns: string, retires: set<nat>): State
    requires Enabled(s, Commit(w, id, ns, retires))
  {
    Step(Step(Step(s, Commit(w, id, ns, retires)), Bump(w)), Acknowledge(w))
  }

  lemma WriteRuns(s: State, w: nat, id: nat, ns: string, retires: set<nat>)
    requires Enabled(s, Commit(w, id, ns, retires))
    ensures Leads(s, Write(w, id, ns, retires), Written(s, w, id, ns, retires))
  {
    var s1 := Step(s, Commit(w, id, ns, retires));
    var s2 := Step(s1, Bump(w));
    var s3 := Step(s2, Acknowledge(w));
    Then(s2, Acknowledge(w), [], s3);
    Then(s1, Bump(w), [Acknowledge(w)] + [], s3);
    Then(s, Commit(w, id, ns, retires), [Bump(w)] + ([Acknowledge(w)] + []), s3);
  }

  /** A recall up to the look at the cache. */
  function Look(r: nat, key: Key, es: seq<Event>): seq<Event> {
    [Begin(r, key)] + ([ReadGeneration(r)] + ([LookUp(r)] + ([Peek(r)] + es)))
  }

  function With(s: State, r: nat, key: Key, stage: Stage): State {
    s.(recalls := s.recalls[r := Recall(key, stage, s.forgotten, s.superseded)])
  }

  /** A step that only moves the recall on. */
  lemma Moves(s: State, r: nat, key: Key, stage: Stage, e: Event, stage': Stage, es: seq<Event>, s': State)
    requires Enabled(With(s, r, key, stage), e) && Step(With(s, r, key, stage), e) == SetStage(With(s, r, key, stage), r, stage')
    requires Leads(With(s, r, key, stage'), es, s')
    ensures Leads(With(s, r, key, stage), [e] + es, s')
  {
    assert SetStage(With(s, r, key, stage), r, stage') == With(s, r, key, stage');
    Then(With(s, r, key, stage), e, es, s');
  }

  lemma LookRuns(s: State, r: nat, key: Key, es: seq<Event>, s': State)
    requires r !in s.recalls
    requires var g := Generation(s, key.ns); Leads(Step(With(s, r, key, Looking(g, g)), Peek(r)), es, s')
    ensures Leads(s, Look(r, key, es), s')
  {
    var g := Generation(s, key.ns);
    Then(With(s, r, key, Looking(g, g)), Peek(r), es, s');
    Moves(s, r, key, HasGeneration(g), LookUp(r), Looking(g, g), [Peek(r)] + es, s');
    Moves(s, r, key, Begun, ReadGeneration(r), HasGeneration(g), [LookUp(r)] + ([Peek(r)] + es), s');
    Then(s, Begin(r, key), [ReadGeneration(r)] + ([LookUp(r)] + ([Peek(r)] + es)), s');
  }

  lemma PutRuns(s: State, r: nat, key: Key, g: nat, id: nat)
    ensures Leads(With(s, r, key, Fetched(g, {id})), [PutAndReturn(r, {id})] + [],
                  With(s, r, key, Returned({id})).(cache := s.cache[key := Entry(g, {id})]))
  {
    var s5 := With(s, r, key, Fetched(g, {id}));
    var s6 := With(s, r, key, Returned({id})).(cache := s.cache[key := Entry(g, {id})]);
    assert Step(s5, PutAndReturn(r, {id})).recalls == s6.recalls;
    Then(s5, PutAndReturn(r, {id}), [], s6);
  }

  lemma FillRuns(s: State, r: nat, key: Key, id: nat)
    requires r !in s.recalls && key !in s.cache && Visible(s, key, id)
    ensures var g := Generation(s, key.ns);
            Leads(s, Look(r, key, [Fetch(r, {id})] + ([PutAndReturn(r, {id})] + [])),
                  With(s, r, key, Returned({id})).(cache := s.cache[key := Entry(g, {id})]))
  {
    var g := Generation(s, key.ns);
    var s' := With(s, r, key, Returned({id})).(cache := s.cache[key := Entry(g, {id})]);
    PutRuns(s, r, key, g, id);
    Moves(s, r, key, Missed(g), Fetch(r, {id}), Fetched(g, {id}), [PutAndReturn(r, {id})] + [], s');
    assert Step(With(s, r, key, Looking(g, g)), Peek(r)) == With(s, r, key, Missed(g));
    LookRuns(s, r, key, [Fetch(r, {id})] + ([PutAndReturn(r, {id})] + []), s');
  }

  lemma HitRuns(s: State, r: nat, key: Key)
    requires r !in s.recalls && key in s.cache && s.cache[key].generation == Generation(s, key.ns)
    ensures Leads(s, Look(r, key, []), With(s, r, key, Returned(s.cache[key].results)))
  {
    var g := Generation(s, key.ns);
    assert Step(With(s, r, key, Looking(g, g)), Peek(r)) == With(s, r, key, Returned(s.cache[key].results));
    LookRuns(s, r, key, [], With(s, r, key, Returned(s.cache[key].results)));
  }

  /** The cache holds `id` for `key`, and a recall would hit. */
  predicate Cached(s: State, key: Key, id: nat) {
    key in s.cache && s.cache[key].generation == Generation(s, key.ns) && id in s.cache[key].results
  }

  /**
   Conflicts are looked for in every namespace, but only the writer's own is bumped: whenever the
   cache holds a fact that a write in another namespace supersedes, a recall that begins after the
   write has been acknowledged returns it.
   */
  lemma ConflictElsewhereStaysCached(s: State, w: nat, id: nat, ns: string, target: nat, r: nat, key: Key)
    requires Enabled(s, Commit(w, id, ns, {target})) && r !in s.recalls
    requires Visible(s, key, target) && Cached(s, key, target) && key.ns != ns
    ensures Valid(s, Write(w, id, ns, {target}) + Look(r, key, []))
    ensures var s' := Exec(s, Write(w, id, ns, {target}) + Look(r, key, []));
            && r in s'.recalls && s'.recalls[r].stage.Returned? && target in s'.recalls[r].stage.results
            && target in s'.rows && s'.rows[target] == Row(false) && id in s'.rows && s'.writers == s.writers
  {
    WriteRuns(s, w, id, ns, {target});
    var s1 := Written(s, w, id, ns, {target});
    assert s1.recalls == s.recalls && s1.cache == s.cache;
    assert s1.writers == s.writers;
    assert Generation(s1, key.ns) == Generation(s, key.ns);
    HitRuns(s1, r, key);
    var s2 := With(s1, r, key, Returned(s1.cache[key].results));
    ThenAll(s, Write(w, id, ns, {target}), s1, Look(r, key, []), s2);
  }

  /** Such a state is reached by one store and one recall. */
  lemma FactIsCached(key: Key) returns (es: seq<Event>)
    ensures Valid(START, es)
    ensures var s := Exec(START, es);
            Visible(s, key, 1) && Cached(s, key, 1) && s.writers == map[] && s.home == map[1 := key.ns] && 1 !in s.recalls
  {
    WriteRuns(START, 0, 1, key.ns, {});
    var s1 := Written(START, 0, 1, key.ns, {});
    assert s1.rows == map[1 := Row(true)] && s1.writers == map[];
    FillRuns(s1, 0, key, 1);
    var s2 := With(s1, 0, key, Returned({1})).(cache := s1.cache[key := Entry(Generation(s1, key.ns), {1})]);
    var fill := Look(0, key, [Fetch(0, {1})] + ([PutAndReturn(0, {1})] + []));
    ThenAll(START, Write(0, 1, key.ns, {}), s1, fill, s2);
    es := Write(0, 1, key.ns, {}) + fill;
  }
}
