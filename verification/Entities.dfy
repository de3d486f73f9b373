/**
 Entity resolution (crates/core/src/entity.rs) over the entity tables (crates/store/src/metadata.rs).
 The similarity of two names is a function to real numbers, what the vector search finds is an
 input, and names are in the normal form of `Text.Normalize` once they are in a table.
 */
module Entities {
  import opened Wrappers
  import opened Text

  const FUZZY_THRESHOLD: real := 0.85
  const EMBEDDING_THRESHOLD: real := 0.92

  datatype Entity = Entity(id: nat, name: string, aliases: seq<string>)

  /** `entities` and `entity_aliases`; nothing is ever deleted from them. */
  datatype Table = Table(names: map<nat, string>, aliases: set<(nat, string)>)

  predicate Owns(t: Table, id: nat, name: string) {
    id in t.names && (t.names[id] == name || (id, name) in t.aliases)
  }

  predicate Owned(t: Table, name: string) {
    exists id :: id in t.names && Owns(t, id, name)
  }

  /** Each name belongs to at most one entity, as its name or as an alias. */
  ghost predicate Unique(t: Table) {
    forall a, b, name :: Owns(t, a, name) && Owns(t, b, name) ==> a == b
  }

  // ----- Resolving, given what the similarities would choose

  /** What a name that nobody owns is resolved to, if the entity exists; otherwise it is a new one. */
  datatype Choice = Existing(id: nat) | New(id: nat)

  predicate Possible(t: Table, choice: Choice) {
    match choice
    case Existing(id) => id in t.names
    case New(id) => id !in t.names
  }

  ghost function Resolved(t: Table, name: string, choice: Choice): (Table, nat)
    requires Possible(t, choice)
  {
    if Owned(t, name) then
      var id :| id in t.names && Owns(t, id, name);
      (t, id)
    else
      match choice
      case Existing(id) => (t.(aliases := t.aliases + {(id, name)}), id)
      case New(id) => (t.(names := t.names[id := name]), id)
  }

  /** A run: names in the order they come, from any number of requests. */
  ghost predicate Valid(u: Unicode, t: Table, run: seq<(string, Choice)>)
    decreases |run|
  {
    run != [] ==> Possible(t, run[0].1) && Valid(u, Resolved(t, Normalize(u, run[0].0), run[0].1).0, run[1..])
  }

  /** The entity that each name of the run resolves to. */
  ghost function Run(u: Unicode, t: Table, run: seq<(string, Choice)>): (ids: seq<nat>)
    requires Valid(u, t, run)
    ensures |ids| == |run|
    decreases |run|
  {
    if run == [] then []
    else
      var (t1, id) := Resolved(t, Normalize(u, run[0].0), run[0].1);
      [id] + Run(u, t1, run[1..])
  }

  const EMPTY := Table(map[], {})

  lemma ResolvedIs(t: Table, name: string, choice: Choice)
    requires Unique(t) && Possible(t, choice) && NoLooseAliases(t)
    ensures var (t', id) := Resolved(t, name, choice);
            && Unique(t') && NoLooseAliases(t') && Owns(t', id, name)
            && (forall a, n :: Owns(t, a, n) ==> Owns(t', a, n))
            && (forall a, n :: Owns(t', a, n) ==> Owns(t, a, n) || (a == id && n == name))
            && (Owned(t, name) ==> t' == t)
  {
    var (t', id) := Resolved(t, name, choice);
    forall a, n | Owns(t', a, n) ensures Owns(t, a, n) || (a == id && n == name) {
      assert (a, n) in t.aliases ==> a in t.names;
    }
    forall a | Owns(t, a, name) ensures Owned(t, name) {}
    forall a, b, n | Owns(t', a, n) && Owns(t', b, n) ensures a == b {
      if n != name || Owned(t, name) { assert Owns(t, a, n) && Owns(t, b, n); }
    }
  }

  predicate NoLooseAliases(t: Table) {
    forall alias :: alias in t.aliases ==> alias.0 in t.names
  }

  ghost function After(u: Unicode, t: Table, run: seq<(string, Choice)>): Table
    requires Valid(u, t, run)
    decreases |run|
  {
    if run == [] then t else After(u, Resolved(t, Normalize(u, run[0].0), run[0].1).0, run[1..])
  }

  /** And each name belongs to one entity at most; what owns a name is the entity it resolved to. */
  lemma {:induction false} NamesStayUnique(u: Unicode, t: Table, run: seq<(string, Choice)>)
    requires Unique(t) && NoLooseAliases(t) && Valid(u, t, run)
    ensures Unique(After(u, t, run))
    ensures forall a, n :: Owns(t, a, n) ==> Owns(After(u, t, run), a, n)
    ensures forall i :: 0 <= i < |run| ==> Owns(After(u, t, run), Run(u, t, run)[i], Normalize(u, run[i].0))
    decreases |run|
  {
    if run != [] {
      var (t1, id) := Resolved(t, Normalize(u, run[0].0), run[0].1);
      ResolvedIs(t, Normalize(u, run[0].0), run[0].1);
      NamesStayUnique(u, t1, run[1..]);
      forall i | 0 <= i < |run| ensures Owns(After(u, t, run), Run(u, t, run)[i], Normalize(u, run[i].0)) {
        assert i > 0 ==> run[i] == run[1..][i - 1] && Run(u, t, run)[i] == Run(u, t1, run[1..])[i - 1];
      }
    }
  }

  /**
   Entity names are a function: in every run, names with the same normal form resolve to the same
   entity, whatever the similarities choose.
   */
  lemma NamesAreAFunction(u: Unicode, t: Table, run: seq<(string, Choice)>, i: nat, j: nat)
    requires Unique(t) && NoLooseAliases(t) && Valid(u, t, run)
    requires i <= j < |run| && Normalize(u, run[i].0) == Normalize(u, run[j].0)
    ensures Run(u, t, run)[i] == Run(u, t, run)[j]
  {
    NamesStayUnique(u, t, run);
    assert Owns(After(u, t, run), Run(u, t, run)[i], Normalize(u, run[i].0));
    assert Owns(After(u, t, run), Run(u, t, run)[j], Normalize(u, run[j].0));
  }

  /** Once a name has an owner, every later name with its normal form resolves to it. */
  lemma OwnerIsStable(u: Unicode, t: Table, run: seq<(string, Choice)>, name: string, owner: nat, j: nat)
    requires Unique(t) && NoLooseAliases(t) && Valid(u, t, run) && Owns(t, owner, name)
    requires j < |run| && Normalize(u, run[j].0) == name
    ensures Run(u, t, run)[j] == owner
  {
    NamesStayUnique(u, t, run);
    assert Owns(After(u, t, run), owner, name);
    assert Owns(After(u, t, run), Run(u, t, run)[j], Normalize(u, run[j].0));
  }

  // ----- The best fuzzy match

  type Score = (string, string) -> real

  datatype Candidate = Candidate(entity: Entity, name: string)

  function NamesOf(e: Entity): seq<string> {
    [e.name] + e.aliases
  }

  function CandidatesOf(e: Entity, names: seq<string>): seq<Candidate> {
    if names == [] then [] else [Candidate(e, names[0])] + CandidatesOf(e, names[1..])
  }

  function Candidates(entities: seq<Entity>): seq<Candidate> {
    if entities == [] then [] else CandidatesOf(entities[0], NamesOf(entities[0])) + Candidates(entities[1..])
  }

  /** `filter` and `max_by`, which keeps the last of equals: the place of the best candidate so far. */
  function Best(name: string, candidates: seq<Candidate>, score: Score, threshold: real): (best: Option<nat>)
    ensures best.Some? ==> best.value < |candidates|
  {
    if candidates == [] then None
    else
      var n := |candidates| - 1;
      var before := Best(name, candidates[..n], score, threshold);
      var last := score(candidates[n].name, name);
      if last > threshold && (before.None? || last >= score(candidates[before.value].name, name)) then Some(n)
      else before
  }

  /** The best candidate is above the threshold, as good as all others and better than all later ones. */
  predicate IsBest(name: string, candidates: seq<Candidate>, score: Score, threshold: real, i: nat) {
    && i < |candidates| && score(candidates[i].name, name) > threshold
    && (forall j :: 0 <= j < |candidates| ==> score(candidates[j].name, name) <= score(candidates[i].name, name))
    && (forall j :: i < j < |candidates| ==> score(candidates[j].name, name) < score(candidates[i].name, name))
  }

  lemma {:induction false} BestIs(name: string, candidates: seq<Candidate>, score: Score, threshold: real, i: nat)
    ensures Best(name, candidates, score, threshold) == Some(i) <==> IsBest(name, candidates, score, threshold, i)
    ensures Best(name, candidates, score, threshold).None? <==>
            forall j :: 0 <= j < |candidates| ==> score(candidates[j].name, name) <= threshold
  {
    if candidates != [] {
      var n := |candidates| - 1;
      var before := Best(name, candidates[..n], score, threshold);
      BestIs(name, candidates[..n], score, threshold, i);
      if before.Some? { BestIs(name, candidates[..n], score, threshold, before.value); }
    }
  }

  function BestFuzzyMatch(name: string, entities: seq<Entity>, score: Score): Option<Entity> {
    var candidates := Candidates(entities);
    var best := Best(name, candidates, score, FUZZY_THRESHOLD);
    if best.None? then None else Some(candidates[best.value].entity)
  }

  lemma {:induction false} CandidatesAreEntities(entities: seq<Entity>, i: nat)
    requires i < |Candidates(entities)|
    ensures Candidates(entities)[i].entity in entities
  {
    var first := CandidatesOf(entities[0], NamesOf(entities[0]));
    if i < |first| {
      CandidatesOfEntity(entities[0], NamesOf(entities[0]), i);
    } else {
      CandidatesAreEntities(entities[1..], i - |first|);
    }
  }

  lemma {:induction false} CandidatesOfEntity(e: Entity, names: seq<string>, i: nat)
    requires i < |CandidatesOf(e, names)|
    ensures CandidatesOf(e, names)[i].entity == e
  {
    if i > 0 { CandidatesOfEntity(e, names[1..], i - 1); }
  }

  predicate IsNameOf(e: Entity, name: string) {
    name == e.name || name in e.aliases
  }

  lemma {:induction false} CandidatesOfAre(e: Entity, names: seq<string>, c: Candidate)
    ensures c in CandidatesOf(e, names) <==> c.entity == e && c.name in names
  {
    if names != [] {
      CandidatesOfAre(e, names[1..], c);
      assert names == [names[0]] + names[1..];
    }
  }

  /** The candidates are exactly the names and the aliases of all entities. */
  lemma {:induction false} CandidatesAre(entities: seq<Entity>, c: Candidate)
    ensures c in Candidates(entities) <==> c.entity in entities && IsNameOf(c.entity, c.name)
  {
    if entities != [] {
      CandidatesAre(entities[1..], c);
      CandidatesOfAre(entities[0], NamesOf(entities[0]), c);
      assert entities == [entities[0]] + entities[1..];
      assert c.name in NamesOf(entities[0]) <==> IsNameOf(entities[0], c.name);
    }
  }

  /** An entity is matched just if some name of one is similar enough; then it has one of the most similar names. */
  lemma FuzzyMatchIs(name: string, entities: seq<Entity>, score: Score)
    ensures var best := BestFuzzyMatch(name, entities, score);
            && (best.None? <==> forall e, n :: e in entities && IsNameOf(e, n) ==> score(n, name) <= 0.85)
            && (best.Some? ==>
                  && best.value in entities
                  && exists n :: IsNameOf(best.value, n) && score(n, name) > 0.85
                       && forall e, m :: e in entities && IsNameOf(e, m) ==> score(m, name) <= score(n, name))
  {
    var candidates := Candidates(entities);
    var best := Best(name, candidates, score, FUZZY_THRESHOLD);
    forall e, n | e in entities && IsNameOf(e, n) ensures Candidate(e, n) in candidates {
      CandidatesAre(entities, Candidate(e, n));
    }
    forall i | 0 <= i < |candidates| ensures candidates[i].entity in entities && IsNameOf(candidates[i].entity, candidates[i].name) {
      CandidatesAre(entities, candidates[i]);
      assert candidates[i] in candidates;
    }
    BestIs(name, candidates, score, FUZZY_THRESHOLD, if best.Some? then best.value else 0);
    if best.Some? {
      assert IsNameOf(candidates[best.value].entity, candidates[best.value].name);
      forall e, m | e in entities && IsNameOf(e, m) ensures score(m, name) <= score(candidates[best.value].name, name) {
        var j :| 0 <= j < |candidates| && candidates[j] == Candidate(e, m);
      }
    } else {
      forall e, n | e in entities && IsNameOf(e, n) ensures score(n, name) <= 0.85 {
        var j :| 0 <= j < |candidates| && candidates[j] == Candidate(e, n);
      }
    }
  }

  lemma FuzzyMatchIsKnown(name: string, entities: seq<Entity>, score: Score)
    ensures BestFuzzyMatch(name, entities, score).Some? ==> BestFuzzyMatch(name, entities, score).value in entities
  {
    var best := Best(name, Candidates(entities), score, FUZZY_THRESHOLD);
    if best.Some? { CandidatesAreEntities(entities, best.value); }
  }

  // ----- The resolver

  datatype Error = EmptyName | PointNotWritten

  /** What the vector search and the writing of a new entity's point come to for one name. */
  datatype Vector = Vector(nearest: Option<(nat, real)>, pointWritten: bool)

  /** The nearest point is near enough, and of an entity that is known. */
  ghost predicate Near(all: seq<Entity>, vector: Vector) {
    && vector.nearest.Some? && vector.nearest.value.1 > EMBEDDING_THRESHOLD
    && exists e :: e in all && e.id == vector.nearest.value.0
  }

  /** Each entity of the tables as it is loaded: with its name, and its aliases in some order. */
  ghost predicate AreRows(t: Table, all: seq<Entity>) {
    && (forall e :: e in all ==> e.id in t.names && e.name == t.names[e.id] && forall n :: n in e.aliases <==> (e.id, n) in t.aliases)
    && (forall id :: id in t.names ==> exists e :: e in all && e.id == id)
  }

  /** What a request knows after some names: what it loaded, and what has been added since. */
  function Known(all: seq<Entity>, resolved: seq<Entity>): seq<Entity> {
    if resolved == [] then all
    else
      var before, last := Known(all, resolved[..|resolved| - 1]), resolved[|resolved| - 1];
      if exists e :: e in before && e.id == last.id then before else before + [last]
  }

  /** What a name without an owner is resolved to: the most similar of the known, the nearest, or a new one. */
  ghost predicate Chosen(name: string, known: seq<Entity>, score: Score, vector: Vector, newId: nat, e: Entity) {
    if BestFuzzyMatch(name, known, score).Some? then e == BestFuzzyMatch(name, known, score).value
    else e.id == if Near(known, vector) then vector.nearest.value.0 else newId
  }

  /** The names of a request, and what comes with each of them. */
  datatype Asked = Asked(name: string, vector: Vector, newId: nat)

  predicate SameBefore(u: Unicode, given: seq<Asked>, i: nat, j: nat) {
    j < i < |given| && Normalize(u, given[j].name) == Normalize(u, given[i].name)
  }

  /** The `i`-th of a request's names goes to its owner, or where an equal one went before it, or is chosen for. */
  ghost predicate Settled(u: Unicode, score: Score, t: Table, all: seq<Entity>, given: seq<Asked>, resolved: seq<Entity>, i: nat)
    requires i < |given| && i < |resolved|
  {
    var name := Normalize(u, given[i].name);
    && name != []
    && (Owned(t, name) ==> Owns(t, resolved[i].id, name))
    && (forall j: nat :: SameBefore(u, given, i, j) ==> resolved[j].id == resolved[i].id)
    && (!Owned(t, name) && (forall j: nat :: !SameBefore(u, given, i, j)) ==>
          Chosen(name, Known(all, resolved[..i]), score, given[i].vector, given[i].newId, resolved[i]))
  }

  class Resolver {
    var names: map<nat, string>
    var aliases: set<(nat, string)>
    const u: Unicode
    const score: Score

    ghost function Tables(): Table
      reads this
    {
      Table(names, aliases)
    }

    ghost predicate Valid()
      reads this
    {
      Unique(Tables()) && NoLooseAliases(Tables())
    }

    constructor (u: Unicode, score: Score)
      ensures Valid() && Tables() == EMPTY
    {
      this.u := u;
      this.score := score;
      names, aliases := map[], {};
    }

    /** `get_entity_by_name`: by name first, then by alias. */
    method GetByName(name: string) returns (found: Option<Entity>)
      requires Valid()
      ensures found.Some? <==> Owned(Tables(), name)
      ensures found.Some? ==> Owns(Tables(), found.value.id, name)
    {
      found := None;
      if id :| id in names && names[id] == name {
        var e := Load(id);
        found := Some(e);
      } else if alias :| alias in aliases && alias.1 == name {
        assert Owns(Tables(), alias.0, name);
        var e := Load(alias.0);
        found := Some(e);
      }
    }

    /** A row with its aliases, in some order. */
    method Load(id: nat) returns (e: Entity)
      requires id in names
      ensures e.id == id && e.name == names[id] && forall n :: n in e.aliases <==> (id, n) in aliases
    {
      var own, rest := [], set alias | alias in aliases && alias.0 == id;
      while rest != {}
        invariant forall alias :: alias in rest ==> alias in aliases && alias.0 == id
        invariant forall n :: (id, n) in aliases <==> n in own || (id, n) in rest
        decreases |rest|
      {
        var alias :| alias in rest;
        own, rest := own + [alias.1], rest - {alias};
      }
      e := Entity(id, names[id], own);
    }

    /** `get_all_entities`. */
    method GetAll() returns (all: seq<Entity>)
      ensures AreRows(Tables(), all)
    {
      all := [];
      var rest := names.Keys;
      while rest != {}
        invariant rest <= names.Keys
        invariant forall e :: e in all ==> e.id in names && e.name == names[e.id] && forall n :: n in e.aliases <==> (e.id, n) in aliases
        invariant forall id :: id in names && id !in rest ==> exists e :: e in all && e.id == id
        decreases |rest|
      {
        var id :| id in rest;
        var e := Load(id);
        ghost var was := all;
        all, rest := all + [e], rest - {id};
        assert e in all && forall known :: known in was ==> known in all;
      }
    }

    method AddAlias(id: nat, name: string)
      modifies this`aliases
      ensures aliases == old(aliases) + {(id, name)}
    {
      aliases := aliases + {(id, name)};
    }

    /** The first of `all` with this id. */
    method FindById(all: seq<Entity>, id: nat) returns (found: Option<Entity>)
      ensures found.Some? ==> found.value in all && found.value.id == id
      ensures found.None? <==> forall e :: e in all ==> e.id != id
    {
      for i := 0 to |all|
        invariant forall j :: 0 <= j < i ==> all[j].id != id
      {
        if all[i].id == id { return Some(all[i]); }
      }
      return None;
    }

    /** `resolve_single`: by exact name, then by similar name, then by embedding; or it is new. */
    method ResolveSingle(name: string, all: seq<Entity>, vector: Vector, newId: nat)
      returns (r: Result<Entity, Error>, ghost choice: Choice)
      requires Valid() && newId !in names && forall e :: e in all ==> e.id in names
      modifies this`names, this`aliases
      ensures Valid()
      ensures names.Keys <= old(names).Keys + {newId}
      ensures r == Err(EmptyName) <==> Normalize(u, name) == []
      ensures r == Err(EmptyName) ==> Tables() == old(Tables())
      ensures r != Err(EmptyName) ==>
                Possible(old(Tables()), choice) && Tables() == Resolved(old(Tables()), Normalize(u, name), choice).0
      ensures r.Ok? ==> r.value.id in names && r.value.id == Resolved(old(Tables()), Normalize(u, name), choice).1
      ensures !Owned(old(Tables()), Normalize(u, name)) && BestFuzzyMatch(Normalize(u, name), all, score).Some? && r.Ok? ==>
                r.value == BestFuzzyMatch(Normalize(u, name), all, score).value
      ensures !Owned(old(Tables()), Normalize(u, name)) && BestFuzzyMatch(Normalize(u, name), all, score).None? && r.Ok? ==>
                r.value.id == if Near(all, vector) then vector.nearest.value.0 else newId
      ensures r == Err(PointNotWritten) ==> newId in names && !vector.pointWritten
    {
      choice := New(newId);
      var normalized := Normalize(u, name);
      if normalized == [] { return Err(EmptyName), choice; }
      ghost var before := Tables();
      var exact := GetByName(normalized);
      if exact.Some? {
        return Ok(exact.value), choice;
      }
      var fuzzy := BestFuzzyMatch(normalized, all, score);
      FuzzyMatchIsKnown(normalized, all, score);
      if fuzzy.Some? {
        choice := Existing(fuzzy.value.id);
        ResolvedIs(before, normalized, choice);
        AddAlias(fuzzy.value.id, normalized);
        return Ok(fuzzy.value), choice;
      }
      if vector.nearest.Some? && vector.nearest.value.1 > EMBEDDING_THRESHOLD {
        var near := FindById(all, vector.nearest.value.0);
        if near.Some? {
          choice := Existing(near.value.id);
          ResolvedIs(before, normalized, choice);
          AddAlias(near.value.id, normalized);
          return Ok(near.value), choice;
        }
      }
      ResolvedIs(before, normalized, choice);
      names := names[newId := normalized];
      return if vector.pointWritten then Ok(Entity(newId, normalized, [])) else Err(PointNotWritten), choice;
    }

    /** What `resolve_single` makes of the next name of a request. */
    method ResolveNext(given: seq<Asked>, known: seq<Entity>, ghost t: Table, ghost all: seq<Entity>, resolved: seq<Entity>)
      returns (r: Result<Entity, Error>)
      requires Valid() && Resolving(u, score, t, Tables(), all, given, resolved) && |resolved| < |given|
      requires given[|resolved|].newId !in names && known == Known(all, resolved) && forall e :: e in known ==> e.id in names
      modifies this`names, this`aliases
      ensures Valid() && old(names).Keys <= names.Keys <= old(names).Keys + {given[|resolved|].newId}
      ensures forall id, n :: Owns(old(Tables()), id, n) ==> Owns(Tables(), id, n)
      ensures r.Ok? ==> r.value.id in names && Resolving(u, score, t, Tables(), all, given, resolved + [r.value])
    {
      ghost var before := Tables();
      ghost var choice;
      var Asked(name, vector, newId) := given[|resolved|];
      r, choice := ResolveSingle(name, known, vector, newId);
      if r != Err(EmptyName) { ResolvedIs(before, Normalize(u, name), choice); }
      if r.Ok? { ResolvingOn(u, score, t, before, Tables(), all, given, resolved, r.value); }
    }

    /** `resolve`: one name after the other; the first error ends it, and what was written stays. */
    method Resolve(given: seq<Asked>) returns (r: Result<seq<Entity>, Error>, ghost all: seq<Entity>)
      requires Valid()
      requires forall i, j :: 0 <= i < j < |given| ==> given[i].newId != given[j].newId
      requires forall i :: 0 <= i < |given| ==> given[i].newId !in names
      modifies this`names, this`aliases
      ensures Valid() && AreRows(old(Tables()), all)
      ensures forall id, n :: Owns(old(Tables()), id, n) ==> Owns(Tables(), id, n)
      ensures r.Ok? ==> |r.value| == |given| && Resolving(u, score, old(Tables()), Tables(), all, given, r.value)
    {
      var known := GetAll();
      all := known;
      ghost var t := Tables();
      var resolved: seq<Entity> := [];
      for i := 0 to |given|
        invariant Valid() && |resolved| == i && known == Known(all, resolved)
        invariant Resolving(u, score, t, Tables(), all, given, resolved)
        invariant forall k :: i <= k < |given| ==> given[k].newId !in names
        invariant forall e :: e in known ==> e.id in names
      {
        var one := ResolveNext(given, known, t, all, resolved);
        if one.Err? { return Err(one.error), all; }
        var same := FindById(known, one.value.id);
        KnownGrows(all, resolved, one.value);
        if same.None? { known := known + [one.value]; }
        resolved := resolved + [one.value];
      }
      r := Ok(resolved);
    }
  }

  /** The tables have gone from `t` to `t1`: no owner is lost, and only the first `n` names asked for have got one. */
  ghost predicate Grown(u: Unicode, t: Table, t1: Table, given: seq<Asked>, n: nat)
    requires n <= |given|
  {
    && (forall id, name :: Owns(t, id, name) ==> Owns(t1, id, name))
    && (forall id, name :: Owns(t1, id, name) ==> Owns(t, id, name) || exists j: nat :: j < n && Normalize(u, given[j].name) == name)
  }

  /** How far a request has got: each of its names so far owns what it went to. */
  ghost predicate Resolving(u: Unicode, score: Score, t: Table, t1: Table, all: seq<Entity>, given: seq<Asked>, resolved: seq<Entity>) {
    && |resolved| <= |given|
    && Grown(u, t, t1, given, |resolved|)
    && (forall k: nat {:trigger Settled(u, score, t, all, given, resolved, k)} :: k < |resolved| ==>
          Owns(t1, resolved[k].id, Normalize(u, given[k].name)) && Settled(u, score, t, all, given, resolved, k))
  }

  lemma StaysSettled(u: Unicode, score: Score, t: Table, all: seq<Entity>, given: seq<Asked>, resolved: seq<Entity>, e: Entity, k: nat)
    requires k < |given| && k < |resolved| && Settled(u, score, t, all, given, resolved, k)
    ensures Settled(u, score, t, all, given, resolved + [e], k)
  {
    assert (resolved + [e])[..k] == resolved[..k];
  }

  lemma KnownGrows(all: seq<Entity>, resolved: seq<Entity>, e: Entity)
    ensures var known := Known(all, resolved);
            Known(all, resolved + [e]) == if exists k :: k in known && k.id == e.id then known else known + [e]
  {
    assert (resolved + [e])[..|resolved|] == resolved;
  }

  lemma GrownOn(u: Unicode, t: Table, t1: Table, t2: Table, given: seq<Asked>, i: nat)
    requires i < |given| && Grown(u, t, t1, given, i)
    requires forall id, name :: Owns(t1, id, name) ==> Owns(t2, id, name)
    requires forall id, name :: Owns(t2, id, name) ==> Owns(t1, id, name) || name == Normalize(u, given[i].name)
    ensures Grown(u, t, t2, given, i + 1)
  {
    forall id, name | Owns(t2, id, name)
      ensures Owns(t, id, name) || exists j: nat :: j < i + 1 && Normalize(u, given[j].name) == name
    {
      if Owns(t1, id, name) && !Owns(t, id, name) {
        var j: nat :| j < i && Normalize(u, given[j].name) == name;
        assert j < i + 1;
      }
    }
  }

  lemma ResolvingOn(
      u: Unicode, score: Score, t: Table, t1: Table, t2: Table, all: seq<Entity>, given: seq<Asked>, resolved: seq<Entity>, e: Entity)
    requires Resolving(u, score, t, t1, all, given, resolved) && |resolved| < |given| && Unique(t2)
    requires forall id, n :: Owns(t1, id, n) ==> Owns(t2, id, n)
    requires var name := Normalize(u, given[|resolved|].name);
             && name != [] && Owns(t2, e.id, name)
             && (forall id, n :: Owns(t2, id, n) ==> Owns(t1, id, n) || n == name)
             && (!Owned(t1, name) ==>
                   Chosen(name, Known(all, resolved), score, given[|resolved|].vector, given[|resolved|].newId, e))
    ensures Resolving(u, score, t, t2, all, given, resolved + [e])
  {
    var resolved', i := resolved + [e], |resolved|;
    SettledNext(u, score, t, t1, t2, all, given, resolved, e);
    forall k: nat | k < |resolved'|
      ensures Owns(t2, resolved'[k].id, Normalize(u, given[k].name)) && Settled(u, score, t, all, given, resolved', k)
    {
      if k < i {
        assert Settled(u, score, t, all, given, resolved, k);
        StaysSettled(u, score, t, all, given, resolved, e, k);
        assert Owns(t1, resolved[k].id, Normalize(u, given[k].name));
      }
    }
    GrownOn(u, t, t1, t2, given, i);
  }

  lemma SettledNext(
      u: Unicode, score: Score, t: Table, t1: Table, t2: Table, all: seq<Entity>, given: seq<Asked>, resolved: seq<Entity>, e: Entity)
    requires Resolving(u, score, t, t1, all, given, resolved) && |resolved| < |given| && Unique(t2)
    requires forall id, n :: Owns(t1, id, n) ==> Owns(t2, id, n)
    requires var name := Normalize(u, given[|resolved|].name);
             && name != [] && Owns(t2, e.id, name)
             && (!Owned(t1, name) ==>
                   Chosen(name, Known(all, resolved), score, given[|resolved|].vector, given[|resolved|].newId, e))
    ensures Settled(u, score, t, all, given, resolved + [e], |resolved|)
  {
    var resolved', i := resolved + [e], |resolved|;
    var name := Normalize(u, given[i].name);
    assert resolved'[..i] == resolved;
    if owner :| owner in t.names && Owns(t, owner, name) { assert Owns(t1, owner, name) && Owns(t2, owner, name); }
    forall j: nat | SameBefore(u, given, i, j) ensures resolved'[j].id == e.id {
      assert Settled(u, score, t, all, given, resolved, j);
      assert Owns(t1, resolved[j].id, name) && Owns(t2, resolved[j].id, name);
    }
    if !Owned(t, name) && forall j: nat :: !SameBefore(u, given, i, j) {
      forall id | id in t1.names ensures !Owns(t1, id, name) {
        if Owns(t1, id, name) {
          var j: nat :| j < i && Normalize(u, given[j].name) == name;
          assert SameBefore(u, given, i, j);
        }
      }
    }
  }
}
