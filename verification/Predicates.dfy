/**
 Predicate normalisation (crates/core/src/predicate.rs). The similarity of two strings is a
 function to real numbers.
 */
module Predicates {
  import opened Wrappers
  import opened Text

  const FUZZY_THRESHOLD: real := 0.85

  type Groups = map<string, seq<string>>

  type Score = (string, string) -> real

  datatype Synonym = Synonym(member: string, canonical: string)

  datatype Tables = Tables(synonyms: seq<Synonym>, lookup: map<string, string>)

  // ----- The order of strings

  predicate Less(a: string, b: string) {
    b != [] && (a == [] || a[0] < b[0] || (a[0] == b[0] && Less(a[1..], b[1..])))
  }

  lemma {:induction false} LessIsTotal(a: string, b: string)
    ensures a == b || Less(a, b) || Less(b, a)
    ensures !(Less(a, b) && Less(b, a)) && !Less(a, a)
  {
    if a != [] && b != [] {
      LessIsTotal(a[1..], b[1..]);
      assert a == [a[0]] + a[1..] && b == [b[0]] + b[1..];
    }
    if a != [] { LessIsTotal(a[1..], a[1..]); }
  }

  lemma {:induction false} LessIsTransitive(a: string, b: string, c: string)
    requires Less(a, b) && Less(b, c)
    ensures Less(a, c)
  {
    if a != [] && a[0] == b[0] == c[0] { LessIsTransitive(a[1..], b[1..], c[1..]); }
  }

  ghost predicate Sorted(names: seq<string>) {
    forall i, j :: 0 <= i < j < |names| ==> Less(names[i], names[j])
  }

  function Insert(names: seq<string>, name: string): seq<string> {
    if names == [] then [name]
    else if Less(name, names[0]) then [name] + names
    else [names[0]] + Insert(names[1..], name)
  }

  lemma {:induction false} InsertIs(names: seq<string>, name: string)
    requires Sorted(names) && name !in names
    ensures Sorted(Insert(names, name))
    ensures forall n :: n in Insert(names, name) <==> n in names || n == name
  {
    if names != [] {
      LessIsTotal(name, names[0]);
      if Less(name, names[0]) {
        forall i | 0 < i < |names| ensures Less(name, names[i]) { LessIsTransitive(name, names[0], names[i]); }
      } else {
        var rest := Insert(names[1..], name);
        InsertIs(names[1..], name);
        forall i | 0 <= i < |rest| ensures Less(names[0], rest[i]) { assert rest[i] in rest; }
        assert names == [names[0]] + names[1..];
      }
    }
  }

  /** The names of a set can be sorted in one way only. */
  lemma {:induction false} SortedIsUnique(a: seq<string>, b: seq<string>)
    requires Sorted(a) && Sorted(b) && forall n :: n in a <==> n in b
    ensures a == b
  {
    BothEmpty(a, b);
    if a != [] {
      assert a[0] in b && b[0] in a;
      LessIsTotal(a[0], b[0]);
      assert a[0] == b[0];
      SameRest(a, b);
      SameRest(b, a);
      SortedIsUnique(a[1..], b[1..]);
      assert a == [a[0]] + a[1..] && b == [b[0]] + b[1..];
    }
  }

  lemma BothEmpty(a: seq<string>, b: seq<string>)
    requires forall n :: n in a <==> n in b
    ensures a == [] <==> b == []
  {
    if a != [] { assert a[0] in b; }
    if b != [] { assert b[0] in a; }
  }

  lemma SameRest(a: seq<string>, b: seq<string>)
    requires Sorted(a) && a != [] && b != [] && a[0] == b[0] && forall n :: n in a ==> n in b
    ensures forall n :: n in a[1..] ==> n in b[1..]
  {
    forall n | n in a[1..] ensures n in b[1..] {
      var i :| 0 < i < |a| && a[i] == n;
      LessIsTotal(a[0], n);
      assert a[i] in b && n != b[0];
      assert b == [b[0]] + b[1..];
    }
  }

  // ----- What the tables are built from

  function Normalized(u: Unicode, names: seq<string>): seq<string> {
    if names == [] then [] else [Normalize(u, names[0])] + Normalized(u, names[1..])
  }

  /** What a group lists: its own name and its members, in normal form. */
  function Members(u: Unicode, groups: Groups, group: string): seq<string>
    requires group in groups
  {
    Normalized(u, [group] + groups[group])
  }

  predicate Claims(u: Unicode, groups: Groups, group: string, member: string) {
    group in groups && member in Members(u, groups, group)
  }

  /** The first group to claim a member keeps it. */
  function AddMember(t: Tables, group: string, member: string): Tables {
    if member in t.lookup then t
    else Tables(t.synonyms + [Synonym(member, group)], t.lookup[member := group])
  }

  function AddMembers(t: Tables, group: string, members: seq<string>): Tables {
    if members == [] then t
    else AddMember(AddMembers(t, group, members[..|members| - 1]), group, members[|members| - 1])
  }

  function AddGroups(u: Unicode, groups: Groups, order: seq<string>): Tables
    requires forall g :: g in order ==> g in groups
  {
    if order == [] then Tables([], map[])
    else
      var group := order[|order| - 1];
      AddMembers(AddGroups(u, groups, order[..|order| - 1]), group, Members(u, groups, group))
  }

  /** The names of all groups, in alphabetical order. */
  ghost predicate Orders(groups: Groups, order: seq<string>) {
    Sorted(order) && forall g :: g in order <==> g in groups
  }

  /** The lookup sends each claimed member to the alphabetically first group that claims it. */
  ghost predicate FirstClaims(u: Unicode, groups: Groups, lookup: map<string, string>) {
    && (forall m :: m in lookup <==> exists g :: Claims(u, groups, g, m))
    && (forall m :: m in lookup ==> Claims(u, groups, lookup[m], m))
    && (forall m, g :: m in lookup && Claims(u, groups, g, m) ==> g == lookup[m] || Less(lookup[m], g))
  }

  /** The synonyms list the lookup, each member once. */
  ghost predicate ListsLookup(t: Tables) {
    && (forall i :: 0 <= i < |t.synonyms| ==>
          t.synonyms[i].member in t.lookup && t.lookup[t.synonyms[i].member] == t.synonyms[i].canonical)
    && (forall m :: m in t.lookup ==> exists i :: 0 <= i < |t.synonyms| && t.synonyms[i].member == m)
    && (forall i, j :: 0 <= i < j < |t.synonyms| ==> t.synonyms[i].member != t.synonyms[j].member)
  }

  lemma AddMemberLists(t: Tables, group: string, member: string)
    requires ListsLookup(t)
    ensures ListsLookup(AddMember(t, group, member))
  {
    var t' := AddMember(t, group, member);
    if member !in t.lookup {
      forall m | m in t'.lookup ensures exists i :: 0 <= i < |t'.synonyms| && t'.synonyms[i].member == m {
        if m == member {
          assert t'.synonyms[|t.synonyms|].member == m;
        } else {
          var i :| 0 <= i < |t.synonyms| && t.synonyms[i].member == m;
          assert t'.synonyms[i].member == m;
        }
      }
    }
  }

  lemma {:induction false} AddMembersIs(t: Tables, group: string, members: seq<string>)
    requires ListsLookup(t)
    ensures var t' := AddMembers(t, group, members);
            && ListsLookup(t')
            && (forall m :: m in t'.lookup <==> m in t.lookup || m in members)
            && (forall m :: m in t'.lookup ==> t'.lookup[m] == if m in t.lookup then t.lookup[m] else group)
  {
    if members != [] {
      var n := |members| - 1;
      AddMembersIs(t, group, members[..n]);
      AddMemberLists(AddMembers(t, group, members[..n]), group, members[n]);
      assert members == members[..n] + [members[n]];
    }
  }

  /** The tables hold the first claims of the groups `done`. */
  ghost predicate Holds(u: Unicode, groups: Groups, done: set<string>, t: Tables) {
    && ListsLookup(t)
    && (forall g, m :: g in done && Claims(u, groups, g, m) ==> m in t.lookup && (g == t.lookup[m] || Less(t.lookup[m], g)))
    && (forall m :: m in t.lookup ==> t.lookup[m] in done && Claims(u, groups, t.lookup[m], m))
  }

  lemma AddGroupHolds(u: Unicode, groups: Groups, done: set<string>, t: Tables, group: string)
    requires Holds(u, groups, done, t) && group in groups && forall g :: g in done ==> Less(g, group)
    ensures Holds(u, groups, done + {group}, AddMembers(t, group, Members(u, groups, group)))
  {
    AddMembersIs(t, group, Members(u, groups, group));
  }

  function Elements(names: seq<string>): set<string> {
    set n | n in names
  }

  lemma {:induction false} AddGroupsIs(u: Unicode, groups: Groups, order: seq<string>)
    requires Sorted(order) && forall g :: g in order ==> g in groups
    ensures Holds(u, groups, Elements(order), AddGroups(u, groups, order))
  {
    if order != [] {
      var n := |order| - 1;
      LastIsGreatest(order);
      AddGroupsIs(u, groups, order[..n]);
      AddGroupHolds(u, groups, Elements(order[..n]), AddGroups(u, groups, order[..n]), order[n]);
    }
  }

  lemma LastIsGreatest(order: seq<string>)
    requires Sorted(order) && order != []
    ensures var n := |order| - 1;
            && Sorted(order[..n]) && Elements(order) == Elements(order[..n]) + {order[n]}
            && (forall g :: g in order[..n] ==> g in order) && order[n] in order
            && forall g :: g in Elements(order[..n]) ==> Less(g, order[n])
  {
    var n := |order| - 1;
    assert order == order[..n] + [order[n]];
    forall g | g in Elements(order[..n]) ensures Less(g, order[n]) {
      var i :| 0 <= i < n && order[i] == g;
    }
  }

  /** Whatever order the groups come in, the tables are the same, and the first claim wins. */
  lemma TablesAreDetermined(u: Unicode, groups: Groups, order: seq<string>, order': seq<string>)
    requires Orders(groups, order) && Orders(groups, order')
    ensures AddGroups(u, groups, order) == AddGroups(u, groups, order')
    ensures FirstClaims(u, groups, AddGroups(u, groups, order).lookup) && ListsLookup(AddGroups(u, groups, order))
  {
    SortedIsUnique(order, order');
    AddGroupsIs(u, groups, order);
    HoldsAll(u, groups, Elements(order), AddGroups(u, groups, order));
  }

  lemma HoldsAll(u: Unicode, groups: Groups, done: set<string>, t: Tables)
    requires Holds(u, groups, done, t) && forall g :: g in done <==> g in groups
    ensures FirstClaims(u, groups, t.lookup)
  {
  }

  // ----- Normalising

  /** The first of the best matches among the first `n` synonyms. */
  function BestOf(synonyms: seq<Synonym>, text: string, score: Score, n: nat): (best: Option<nat>)
    requires n <= |synonyms|
    ensures best.Some? ==> best.value < n
  {
    if n == 0 then None
    else
      var before := BestOf(synonyms, text, score, n - 1);
      var last := score(text, synonyms[n - 1].member);
      if last > FUZZY_THRESHOLD && (before.None? || last > score(text, synonyms[before.value].member)) then Some(n - 1)
      else before
  }

  function Canonical(u: Unicode, t: Tables, score: Score, input: string): string {
    var text := Normalize(u, input);
    if text == [] then text
    else if text in t.lookup then t.lookup[text]
    else
      var best := BestOf(t.synonyms, text, score, |t.synonyms|);
      if best.Some? then t.synonyms[best.value].canonical else text
  }

  predicate IsBest(synonyms: seq<Synonym>, text: string, score: Score, n: nat, i: nat)
    requires n <= |synonyms|
  {
    && i < n && score(text, synonyms[i].member) > FUZZY_THRESHOLD
    && (forall j :: 0 <= j < n ==> score(text, synonyms[j].member) <= score(text, synonyms[i].member))
    && (forall j :: 0 <= j < i ==> score(text, synonyms[j].member) < score(text, synonyms[i].member))
  }

  lemma {:induction false} BestOfIs(synonyms: seq<Synonym>, text: string, score: Score, n: nat, i: nat)
    requires n <= |synonyms|
    ensures BestOf(synonyms, text, score, n) == Some(i) <==> IsBest(synonyms, text, score, n, i)
    ensures BestOf(synonyms, text, score, n).None? <==>
            forall j :: 0 <= j < n ==> score(text, synonyms[j].member) <= FUZZY_THRESHOLD
  {
    if n > 0 {
      var before := BestOf(synonyms, text, score, n - 1);
      BestOfIs(synonyms, text, score, n - 1, i);
      if before.Some? { BestOfIs(synonyms, text, score, n - 1, before.value); }
    }
  }

  /**
   What a predicate stands for: a known text for the group that keeps it, an unknown one for the group
   of the synonym that is most like it, the first of these, if that is alike enough, or else for itself.
   */
  lemma CanonicalIs(u: Unicode, t: Tables, score: Score, input: string)
    ensures var text, r := Normalize(u, input), Canonical(u, t, score, input);
            && (text == [] ==> r == [])
            && (text != [] && text in t.lookup ==> r == t.lookup[text])
            && (text != [] && text !in t.lookup && (forall i :: 0 <= i < |t.synonyms| ==> score(text, t.synonyms[i].member) <= 0.85) ==>
                  r == text)
            && (text != [] && text !in t.lookup && (exists i :: 0 <= i < |t.synonyms| && score(text, t.synonyms[i].member) > 0.85) ==>
                  exists i: nat :: IsBest(t.synonyms, text, score, |t.synonyms|, i) && r == t.synonyms[i].canonical)
  {
    var text := Normalize(u, input);
    var best := BestOf(t.synonyms, text, score, |t.synonyms|);
    BestOfIs(t.synonyms, text, score, |t.synonyms|, if best.Some? then best.value else 0);
  }

  /** Every group that keeps a member that is not empty keeps its own name, or has an empty one. */
  ghost predicate KeepsOwnName(u: Unicode, t: Tables) {
    forall m :: m in t.lookup && m != [] ==> KeepsName(u, t, t.lookup[m])
  }

  predicate KeepsName(u: Unicode, t: Tables, group: string) {
    if Normalize(u, group) == [] then group == []
    else Normalize(u, group) in t.lookup && t.lookup[Normalize(u, group)] == group
  }

  lemma NotTwice(u: Unicode, groups: Groups, t: Tables, score: Score, m: string)
    requires FirstClaims(u, groups, t.lookup) && m in t.lookup && m != [] && !KeepsName(u, t, t.lookup[m])
    ensures Canonical(u, t, score, Canonical(u, t, score, m)) != Canonical(u, t, score, m)
  {
    MembersAreNormal(u, groups, t, m);
    assert Canonical(u, t, score, m) == t.lookup[m];
  }

  lemma {:induction false} NormalizedIs(u: Unicode, names: seq<string>, m: string)
    requires m in Normalized(u, names)
    ensures exists n :: n in names && m == Normalize(u, n)
  {
    if m == Normalize(u, names[0]) {
      assert names[0] in names;
    } else {
      NormalizedIs(u, names[1..], m);
      var n :| n in names[1..] && m == Normalize(u, n);
      assert n in names;
    }
  }

  lemma MembersAreNormal(u: Unicode, groups: Groups, t: Tables, m: string)
    requires FirstClaims(u, groups, t.lookup) && m in t.lookup
    ensures Normalize(u, m) == m && Normalize(u, t.lookup[m]) in t.lookup
  {
    var g := t.lookup[m];
    NormalizedIs(u, [g] + groups[g], m);
    var n :| n in [g] + groups[g] && m == Normalize(u, n);
    NormalizeIsIdempotent(u, n);
    assert Members(u, groups, g)[0] == Normalize(u, g);
    assert Claims(u, groups, g, Normalize(u, g));
  }

  /** A canonical predicate stands for itself just if its group keeps its own name. */
  lemma CanonicalTwice(u: Unicode, groups: Groups, t: Tables, score: Score, input: string)
    requires FirstClaims(u, groups, t.lookup) && ListsLookup(t) && KeepsOwnName(u, t)
    requires forall text :: text != [] ==> score(text, []) <= FUZZY_THRESHOLD
    ensures Canonical(u, t, score, Canonical(u, t, score, input)) == Canonical(u, t, score, input)
  {
    var text := Normalize(u, input);
    NormalizeIsIdempotent(u, input);
    if text == [] {
    } else if text in t.lookup {
      MembersAreNormal(u, groups, t, text);
    } else {
      var best := BestOf(t.synonyms, text, score, |t.synonyms|);
      if best.Some? {
        BestOfIs(t.synonyms, text, score, |t.synonyms|, best.value);
        MembersAreNormal(u, groups, t, t.synonyms[best.value].member);
      }
    }
  }

  /**
   Normalising is idempotent if and only if every group that keeps a member keeps its own name.
   It needs a similarity that does not take the empty string for like any other.
   */
  lemma NormalizeIsIdempotentIff(u: Unicode, groups: Groups, order: seq<string>, score: Score)
    requires Orders(groups, order)
    requires forall text :: text != [] ==> score(text, []) <= FUZZY_THRESHOLD
    ensures var t := AddGroups(u, groups, order);
            (forall input :: Canonical(u, t, score, Canonical(u, t, score, input)) == Canonical(u, t, score, input))
            <==> KeepsOwnName(u, t)
  {
    var t := AddGroups(u, groups, order);
    TablesAreDetermined(u, groups, order, order);
    if KeepsOwnName(u, t) {
      forall input ensures Canonical(u, t, score, Canonical(u, t, score, input)) == Canonical(u, t, score, input) {
        CanonicalTwice(u, groups, t, score, input);
      }
    } else {
      var m :| m in t.lookup && m != [] && !KeepsName(u, t, t.lookup[m]);
      NotTwice(u, groups, t, score, m);
      assert Canonical(u, t, score, Canonical(u, t, score, m)) != Canonical(u, t, score, m);
    }
  }

  // ----- A configuration that is not idempotent

  const CLASH: Groups := map["-a" := [], "a" := ["b"]]

  lemma PlainLetter(u: Unicode, c: char)
    requires Plain(u, c)
    ensures Normalize(u, [c]) == [c]
  {
    assert PlainWord(u, [c]);
    NormalizeOfJoin(u, [[c]]);
  }

  lemma DashedLetter(u: Unicode)
    requires Small(u, '-') && !u.white('-') && Plain(u, 'a')
    ensures Normalize(u, "-a") == "a"
  {
    TrimOf(u, [], "-a", []);
    assert [] + "-a" + [] == "-a";
    LowerOfLowered(u, "-a", 2);
    assert "-a"[..2] == "-a";
    ReplaceIs("-a");
    assert Replace("-a") == " a";
    assert " a"[1..] == "a";
    assert PlainWord(u, "a");
    WordsOfJoin(u, ["a"]);
    assert Words(u, "a") == ["a"];
  }

  lemma NormalizedPush(u: Unicode, name: string, names: seq<string>)
    ensures Normalized(u, [name] + names) == [Normalize(u, name)] + Normalized(u, names)
  {
    assert ([name] + names)[1..] == names;
  }

  lemma ClashMembers(u: Unicode)
    requires Small(u, '-') && !u.white('-') && Plain(u, 'a') && Plain(u, 'b')
    ensures Members(u, CLASH, "-a") == ["a"] && Members(u, CLASH, "a") == ["a", "b"]
  {
    PlainLetter(u, 'a');
    PlainLetter(u, 'b');
    DashedLetter(u);
    NormalizedPush(u, "-a", []);
    NormalizedPush(u, "a", ["b"]);
    NormalizedPush(u, "b", []);
    assert ["b"] + [] == ["b"];
    assert Members(u, CLASH, "-a") == Normalized(u, ["-a"] + []);
    assert Members(u, CLASH, "a") == Normalized(u, ["a"] + ["b"]);
  }

  lemma FirstClaimKeeps(u: Unicode, groups: Groups, lookup: map<string, string>, group: string, member: string)
    requires FirstClaims(u, groups, lookup) && Claims(u, groups, group, member)
    requires forall other :: other in groups && Claims(u, groups, other, member) ==> other == group || Less(group, other)
    ensures member in lookup && lookup[member] == group
  {
    LessIsTotal(group, lookup[member]);
  }

  lemma ClashLookup(u: Unicode, lookup: map<string, string>)
    requires FirstClaims(u, CLASH, lookup)
    requires Members(u, CLASH, "-a") == ["a"] && Members(u, CLASH, "a") == ["a", "b"]
    ensures "a" in lookup && lookup["a"] == "-a" && "b" in lookup && lookup["b"] == "a"
  {
    var dashed, plain, member := "-a", "a", "b";
    assert Less(dashed, plain);
    assert CLASH.Keys == {dashed, plain};
    assert Members(u, CLASH, dashed)[0] == plain && Members(u, CLASH, plain)[1] == member;
    assert !Claims(u, CLASH, dashed, member);
    FirstClaimKeeps(u, CLASH, lookup, dashed, plain);
    FirstClaimKeeps(u, CLASH, lookup, plain, member);
  }

  /** Two groups whose names have one normal form: the later one keeps a member and loses its own name. */
  lemma ClashIsNotIdempotent(u: Unicode, order: seq<string>, score: Score)
    requires Small(u, '-') && !u.white('-') && Plain(u, 'a') && Plain(u, 'b') && Orders(CLASH, order)
    ensures var t := AddGroups(u, CLASH, order);
            Canonical(u, t, score, "b") == "a" && Canonical(u, t, score, "a") == "-a"
  {
    TablesAreDetermined(u, CLASH, order, order);
    ClashMembers(u);
    ClashLookup(u, AddGroups(u, CLASH, order).lookup);
    PlainLetter(u, 'a');
    PlainLetter(u, 'b');
  }

  // ----- The object

  class PredicateNormalizer {
    const u: Unicode
    var synonyms: seq<Synonym>
    var lookup: map<string, string>

    ghost function State(): Tables
      reads this
    {
      Tables(synonyms, lookup)
    }

    constructor (u: Unicode, groups: Groups, order: seq<string>)
      requires Orders(groups, order)
      ensures this.u == u && State() == AddGroups(u, groups, order)
    {
      this.u := u;
      synonyms, lookup := [], map[];
      new;
      for i := 0 to |order|
        invariant State() == AddGroups(u, groups, order[..i])
      {
        AddGroup(order[i], Members(u, groups, order[i]));
        assert order[..i + 1][..i] == order[..i];
      }
      assert order[..|order|] == order;
    }

    method AddGroup(group: string, members: seq<string>)
      modifies this
      ensures State() == AddMembers(old(State()), group, members)
    {
      for k := 0 to |members|
        invariant State() == AddMembers(old(State()), group, members[..k])
      {
        if members[k] !in lookup {
          lookup := lookup[members[k] := group];
          synonyms := synonyms + [Synonym(members[k], group)];
        }
        assert members[..k + 1][..k] == members[..k];
      }
      assert members[..|members|] == members;
    }

    /** `normalize`. */
    method NormalizeInput(score: Score, input: string) returns (r: string)
      ensures r == Canonical(u, State(), score, input)
    {
      var text := Normalize(u, input);
      if text == [] { return text; }
      if text in lookup { return lookup[text]; }
      var best: Option<(string, real)> := None;
      for i := 0 to |synonyms|
        invariant var b := BestOf(synonyms, text, score, i);
                  if b.None? then best.None?
                  else best == Some((synonyms[b.value].canonical, score(text, synonyms[b.value].member)))
      {
        var entry := synonyms[i];
        var s := score(text, entry.member);
        if s > FUZZY_THRESHOLD && (best.None? || s > best.value.1) {
          best := Some((entry.canonical, s));
        }
      }
      r := if best.Some? then best.value.0 else text;
    }
  }

  /** `new`: the groups come in any order, and are sorted first. */
  method NewNormalizer(u: Unicode, groups: Groups) returns (normalizer: PredicateNormalizer, ghost order: seq<string>)
    ensures fresh(normalizer) && Orders(groups, order) && normalizer.State() == AddGroups(u, groups, order)
  {
    var sorted: seq<string>, rest := [], groups.Keys;
    while rest != {}
      invariant Sorted(sorted) && rest <= groups.Keys
      invariant forall g :: g in groups <==> g in rest || g in sorted
      invariant forall g :: g in rest ==> g !in sorted
      decreases |rest|
    {
      var g :| g in rest;
      InsertIs(sorted, g);
      sorted, rest := Insert(sorted, g), rest - {g};
    }
    order := sorted;
    normalizer := new PredicateNormalizer(u, groups, sorted);
  }
}
