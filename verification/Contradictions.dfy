/**
 Contradiction detection (crates/core/src/reflect.rs), up to the pass over aliases. A memory is
 referred to by its place in the list. Hash maps are visited in any order, and the similarity of
 two predicates is a function to real numbers.
 */
module Contradictions {
  import opened Wrappers
  import opened Text

  const FUZZY_THRESHOLD: real := 0.75

  datatype Memory = Memory(
    id: nat, subject: Option<string>, relation: Option<string>, normalized: Option<string>, obj: Option<string>)

  datatype MatchType = ExactPredicate | FuzzyPredicate

  datatype Pair = Pair(a: nat, b: nat, kind: MatchType, similarity: real)

  /** How strings are lower-cased, and how alike two are. */
  datatype Reading = Reading(unicode: Unicode, score: (string, string) -> real)

  type Classify = (Memory, Memory) -> Option<(MatchType, real)>

  function EffectivePredicate(m: Memory): string {
    if m.normalized.Some? then m.normalized.value else if m.relation.Some? then m.relation.value else []
  }

  function EffectiveObject(m: Memory): string {
    if m.obj.Some? then m.obj.value else []
  }

  /** The group that a memory goes to in the exact pass: only a raw predicate is lower-cased. */
  function ExactKey(how: Reading, m: Memory): Option<(string, string)> {
    if m.subject.None? then None
    else if m.normalized.Some? then Some((Lower(how.unicode, m.subject.value), m.normalized.value))
    else if m.relation.Some? then Some((Lower(how.unicode, m.subject.value), Lower(how.unicode, m.relation.value)))
    else None
  }

  function SubjectKey(how: Reading, m: Memory): Option<string> {
    if m.subject.None? then None else Some(Lower(how.unicode, m.subject.value))
  }

  function ClassifyExact(a: Memory, b: Memory): Option<(MatchType, real)> {
    Some((ExactPredicate, 1.0))
  }

  function ClassifyFuzzy(how: Reading, a: Memory, b: Memory): Option<(MatchType, real)> {
    var pa, pb := EffectivePredicate(a), EffectivePredicate(b);
    if pa != pb && how.score(pa, pb) > FUZZY_THRESHOLD then Some((FuzzyPredicate, how.score(pa, pb))) else None
  }

  // ----- What ought to be reported

  predicate Exact(how: Reading, a: Memory, b: Memory) {
    ExactKey(how, a).Some? && ExactKey(how, a) == ExactKey(how, b) && EffectiveObject(a) != EffectiveObject(b)
  }

  predicate Fuzzy(how: Reading, a: Memory, b: Memory) {
    && SubjectKey(how, a).Some? && SubjectKey(how, a) == SubjectKey(how, b) && EffectiveObject(a) != EffectiveObject(b)
    && EffectivePredicate(a) != EffectivePredicate(b) && how.score(EffectivePredicate(a), EffectivePredicate(b)) > 0.75
  }

  predicate Contradict(mems: seq<Memory>, how: Reading, i: nat, j: nat) {
    i < j < |mems| && (Exact(how, mems[i], mems[j]) || Fuzzy(how, mems[i], mems[j]))
  }

  function Ids(mems: seq<Memory>): seq<nat> {
    seq(|mems|, i requires 0 <= i < |mems| => mems[i].id)
  }

  /** A reported pair is a contradiction of the kind it is reported as. */
  predicate Sound(mems: seq<Memory>, how: Reading, p: Pair) {
    && p.a < p.b < |mems|
    && match p.kind
       case ExactPredicate => Exact(how, mems[p.a], mems[p.b]) && p.similarity == 1.0
       case FuzzyPredicate =>
         Fuzzy(how, mems[p.a], mems[p.b]) &&
         p.similarity == how.score(EffectivePredicate(mems[p.a]), EffectivePredicate(mems[p.b]))
  }

  ghost predicate AllSound(mems: seq<Memory>, how: Reading, pairs: seq<Pair>) {
    forall p :: p in pairs ==> Sound(mems, how, p)
  }

  predicate Has(ids: seq<nat>, p: Pair, id: nat) {
    p.a < p.b < |ids| && (ids[p.a] == id || ids[p.b] == id)
  }

  /** `matched` are the ids of the memories in `pairs`. */
  ghost predicate Matches(ids: seq<nat>, pairs: seq<Pair>, matched: set<nat>) {
    && (forall k :: 0 <= k < |pairs| ==> pairs[k].a < pairs[k].b < |ids|)
    && (forall id :: id in matched <==> exists k :: 0 <= k < |pairs| && Has(ids, pairs[k], id))
  }

  /** What the two passes keep: no pair twice, and fewer pairs than memories in them. */
  ghost predicate Fits(ids: seq<nat>, pairs: seq<Pair>, matched: set<nat>) {
    && Matches(ids, pairs, matched)
    && (forall k, l :: 0 <= k < l < |pairs| ==> (pairs[k].a, pairs[k].b) != (pairs[l].a, pairs[l].b))
    && (pairs != [] ==> |pairs| < |matched|)
  }

  predicate Distinct(ids: seq<nat>) {
    forall i, j :: 0 <= i < j < |ids| ==> ids[i] != ids[j]
  }

  lemma PushMatches(ids: seq<nat>, pairs: seq<Pair>, matched: set<nat>, p: Pair)
    requires Matches(ids, pairs, matched) && p.a < p.b < |ids|
    ensures Matches(ids, pairs + [p], matched + {ids[p.a], ids[p.b]})
  {
    var pairs', matched' := pairs + [p], matched + {ids[p.a], ids[p.b]};
    forall id | id in matched' ensures exists k :: 0 <= k < |pairs'| && Has(ids, pairs'[k], id) {
      if id in {ids[p.a], ids[p.b]} {
        assert Has(ids, pairs'[|pairs|], id);
      } else {
        var k :| 0 <= k < |pairs| && Has(ids, pairs[k], id);
        assert Has(ids, pairs'[k], id);
      }
    }
    forall id, k | 0 <= k < |pairs'| && Has(ids, pairs'[k], id) ensures id in matched' {
      if k < |pairs| { assert Has(ids, pairs[k], id); }
    }
  }

  lemma PushCounts(matched: set<nat>, x: nat, y: nat)
    requires x != y && !(x in matched && y in matched)
    ensures |matched + {x, y}| > |matched| && |matched + {x, y}| >= 2
  {
    var m := matched + {x, y};
    if x in matched {
      assert m == matched + {y} && |{x, y}| == 2;
      SubsetIsSmaller({x, y}, m);
    } else {
      assert m == (matched + {y}) + {x};
      SubsetIsSmaller(matched, matched + {y});
      SubsetIsSmaller({y}, matched + {y});
    }
  }

  lemma PushFits(ids: seq<nat>, pairs: seq<Pair>, matched: set<nat>, p: Pair)
    requires Distinct(ids) && Fits(ids, pairs, matched) && p.a < p.b < |ids|
    requires !(ids[p.a] in matched && ids[p.b] in matched)
    ensures Fits(ids, pairs + [p], matched + {ids[p.a], ids[p.b]})
  {
    var x, y := ids[p.a], ids[p.b];
    PushMatches(ids, pairs, matched, p);
    forall k | 0 <= k < |pairs| ensures (pairs[k].a, pairs[k].b) != (p.a, p.b) {
      assert Has(ids, pairs[k], ids[pairs[k].a]) && Has(ids, pairs[k], ids[pairs[k].b]);
    }
    PushCounts(matched, x, y);
  }

  // ----- Groups

  /** The memories of a group are listed in the order they came in. */
  ghost predicate Ascending(group: seq<nat>, n: nat) {
    (forall k :: 0 <= k < |group| ==> group[k] < n) && (forall k, l :: 0 <= k < l < |group| ==> group[k] < group[l])
  }

  /** The groups by `key` of the first `n` memories. */
  ghost predicate Groups<K(!new)>(mems: seq<Memory>, key: Memory -> Option<K>, n: nat, groups: map<K, seq<nat>>)
    requires n <= |mems|
  {
    && (forall k :: k in groups ==> Ascending(groups[k], n) && forall i :: i in groups[k] ==> key(mems[i]) == Some(k))
    && (forall i :: 0 <= i < n && key(mems[i]).Some? ==>
          key(mems[i]).value in groups && i in groups[key(mems[i]).value])
  }

  method GroupBy<K(==, !new)>(mems: seq<Memory>, key: Memory -> Option<K>) returns (groups: map<K, seq<nat>>)
    ensures Groups(mems, key, |mems|, groups)
  {
    groups := map[];
    for n := 0 to |mems|
      invariant Groups(mems, key, n, groups)
    {
      var k := key(mems[n]);
      if k.Some? {
        var before := if k.value in groups then groups[k.value] else [];
        groups := groups[k.value := before + [n]];
      }
    }
  }

  // ----- The two passes

  predicate Reports(mems: seq<Memory>, classify: Classify, i: nat, j: nat) {
    i < j < |mems| && EffectiveObject(mems[i]) != EffectiveObject(mems[j]) && classify(mems[i], mems[j]).Some?
  }

  function ReportOf(mems: seq<Memory>, classify: Classify, i: nat, j: nat): Pair
    requires Reports(mems, classify, i, j)
  {
    var (kind, similarity) := classify(mems[i], mems[j]).value;
    Pair(i, j, kind, similarity)
  }

  /** What a pass over `group` has to have reported when it is at places `k` and `l`. */
  ghost predicate Covers(mems: seq<Memory>, classify: Classify, group: seq<nat>, matched: set<nat>, k: nat, l: nat) {
    forall x, y :: 0 <= x < y < |group| && (x < k || (x == k && y < l)) ==> Covered(mems, classify, group[x], group[y], matched)
  }

  predicate Covered(mems: seq<Memory>, classify: Classify, i: nat, j: nat, matched: set<nat>) {
    Reports(mems, classify, i, j) ==> mems[i].id in matched && mems[j].id in matched
  }

  /** Whatever `classify` lets through in a group may be reported. */
  ghost predicate Permits(mems: seq<Memory>, how: Reading, classify: Classify, group: seq<nat>) {
    forall x, y :: 0 <= x < y < |group| ==> Permitted(mems, how, classify, group[x], group[y])
  }

  predicate Permitted(mems: seq<Memory>, how: Reading, classify: Classify, i: nat, j: nat) {
    Reports(mems, classify, i, j) ==> Sound(mems, how, ReportOf(mems, classify, i, j))
  }

  /** `find_pairs_with_different_objects`. */
  method FindPairs(mems: seq<Memory>, ghost how: Reading, group: seq<nat>, classify: Classify, given: seq<Pair>, known: set<nat>)
    returns (pairs: seq<Pair>, matched: set<nat>)
    requires Distinct(Ids(mems)) && Ascending(group, |mems|)
    requires Fits(Ids(mems), given, known) && AllSound(mems, how, given)
    requires Permits(mems, how, classify, group)
    ensures Fits(Ids(mems), pairs, matched) && AllSound(mems, how, pairs) && known <= matched
    ensures Covers(mems, classify, group, matched, |group|, 0)
  {
    pairs, matched := given, known;
    if |group| < 2 { return; }
    for k := 0 to |group|
      invariant Fits(Ids(mems), pairs, matched) && AllSound(mems, how, pairs) && known <= matched
      invariant Covers(mems, classify, group, matched, k, 0)
    {
      for l := k + 1 to |group|
        invariant Fits(Ids(mems), pairs, matched) && AllSound(mems, how, pairs) && known <= matched
        invariant Covers(mems, classify, group, matched, k, l)
      {
        assert Permitted(mems, how, classify, group[k], group[l]);
        ghost var before := matched;
        pairs, matched := FindPair(mems, how, group[k], group[l], classify, pairs, matched);
        CoversMore(mems, classify, group, before, matched, k, l);
      }
    }
  }

  lemma CoversMore(mems: seq<Memory>, classify: Classify, group: seq<nat>, matched: set<nat>, matched': set<nat>, k: nat, l: nat)
    requires Covers(mems, classify, group, matched, k, l) && matched <= matched' && k < l < |group|
    requires Covered(mems, classify, group[k], group[l], matched')
    ensures Covers(mems, classify, group, matched', k, l + 1)
  {
    forall x, y | 0 <= x < y < |group| && (x < k || (x == k && y < l + 1))
      ensures Covered(mems, classify, group[x], group[y], matched')
    {
      assert (x, y) != (k, l) ==> Covered(mems, classify, group[x], group[y], matched);
    }
  }

  /** The turn of the inner loop for one pair. */
  method FindPair(mems: seq<Memory>, ghost how: Reading, i: nat, j: nat, classify: Classify, given: seq<Pair>, known: set<nat>)
    returns (pairs: seq<Pair>, matched: set<nat>)
    requires Distinct(Ids(mems)) && i < j < |mems|
    requires Fits(Ids(mems), given, known) && AllSound(mems, how, given)
    requires Permitted(mems, how, classify, i, j)
    ensures Fits(Ids(mems), pairs, matched) && AllSound(mems, how, pairs) && known <= matched
    ensures Covered(mems, classify, i, j, matched)
  {
    pairs, matched := given, known;
    var a, b := mems[i], mems[j];
    if a.id in matched && b.id in matched { return; }
    if EffectiveObject(a) == EffectiveObject(b) { return; }
    var found := classify(a, b);
    if found.Some? {
      assert Reports(mems, classify, i, j);
      PushFits(Ids(mems), given, known, Pair(i, j, found.value.0, found.value.1));
      pairs := pairs + [Pair(i, j, found.value.0, found.value.1)];
      matched := matched + {a.id, b.id};
    }
  }

  /** One pass, over all groups, in any order. */
  method Pass<K(==, !new)>(mems: seq<Memory>, ghost how: Reading, key: Memory -> Option<K>, classify: Classify, given: seq<Pair>, known: set<nat>)
    returns (pairs: seq<Pair>, matched: set<nat>)
    requires Distinct(Ids(mems)) && Fits(Ids(mems), given, known) && AllSound(mems, how, given)
    requires forall i, j :: SameGroup(mems, key, i, j) ==> Permitted(mems, how, classify, i, j)
    ensures Fits(Ids(mems), pairs, matched) && AllSound(mems, how, pairs) && known <= matched
    ensures forall i, j :: SameGroup(mems, key, i, j) ==> Covered(mems, classify, i, j, matched)
  {
    var groups := GroupBy(mems, key);
    pairs, matched := given, known;
    var rest := groups.Keys;
    while rest != {}
      invariant rest <= groups.Keys
      invariant Fits(Ids(mems), pairs, matched) && AllSound(mems, how, pairs) && known <= matched
      invariant forall k :: k in groups && k !in rest ==> Covers(mems, classify, groups[k], matched, |groups[k]|, 0)
      decreases |rest|
    {
      var k :| k in rest;
      GroupIsPermitted(mems, how, key, classify, groups[k], k);
      ghost var before := matched;
      pairs, matched := FindPairs(mems, how, groups[k], classify, pairs, matched);
      rest := rest - {k};
      forall k | k in groups && k !in rest ensures Covers(mems, classify, groups[k], matched, |groups[k]|, 0) {
        if Covers(mems, classify, groups[k], before, |groups[k]|, 0) { CoversStill(mems, classify, groups[k], before, matched); }
      }
    }
    forall i: nat, j: nat | SameGroup(mems, key, i, j) ensures Covered(mems, classify, i, j, matched) {
      var group := groups[key(mems[i]).value];
      var x :| 0 <= x < |group| && group[x] == i;
      var y :| 0 <= y < |group| && group[y] == j;
      assert Covered(mems, classify, group[x], group[y], matched);
    }
  }

  lemma CoversStill(mems: seq<Memory>, classify: Classify, group: seq<nat>, matched: set<nat>, matched': set<nat>)
    requires Covers(mems, classify, group, matched, |group|, 0) && matched <= matched'
    ensures Covers(mems, classify, group, matched', |group|, 0)
  {
    forall x, y | 0 <= x < y < |group| ensures Covered(mems, classify, group[x], group[y], matched') {
      assert Covered(mems, classify, group[x], group[y], matched);
    }
  }

  lemma GroupIsPermitted<K(!new)>(mems: seq<Memory>, how: Reading, key: Memory -> Option<K>, classify: Classify, group: seq<nat>, k: K)
    requires forall i, j :: SameGroup(mems, key, i, j) ==> Permitted(mems, how, classify, i, j)
    requires Ascending(group, |mems|) && forall i :: i in group ==> key(mems[i]) == Some(k)
    ensures Permits(mems, how, classify, group)
  {
    forall x, y | 0 <= x < y < |group| ensures Permitted(mems, how, classify, group[x], group[y]) {
      assert group[x] in group && group[y] in group;
      assert SameGroup(mems, key, group[x], group[y]);
    }
  }

  ghost predicate SameGroup<K>(mems: seq<Memory>, key: Memory -> Option<K>, i: nat, j: nat) {
    i < j < |mems| && key(mems[i]).Some? && key(mems[i]) == key(mems[j])
  }

  /**
   `detect_contradictions` up to the aliases: every pair is a contradiction, none is reported twice,
   there are fewer of them than memories, and both of any two that contradict each other are in some
   pair. So whatever order the groups are visited in, the memories in the pairs are the same.
   */
  method Detect(mems: seq<Memory>, how: Reading) returns (pairs: seq<Pair>)
    requires Distinct(Ids(mems))
    ensures AllSound(mems, how, pairs)
    ensures forall k, l :: 0 <= k < l < |pairs| ==> (pairs[k].a, pairs[k].b) != (pairs[l].a, pairs[l].b)
    ensures pairs == [] || |pairs| < |mems|
    ensures forall i, j :: Contradict(mems, how, i, j) ==> InSome(pairs, i) && InSome(pairs, j)
  {
    var matched: set<nat>;
    var exactKey := (m: Memory) => ExactKey(how, m);
    var subjectKey := (m: Memory) => SubjectKey(how, m);
    var fuzzy := (a, b) => ClassifyFuzzy(how, a, b);
    pairs, matched := Pass(mems, how, exactKey, ClassifyExact, [], {});
    ghost var exact := matched;
    pairs, matched := Pass(mems, how, subjectKey, fuzzy, pairs, matched);
    MatchedAreFew(Ids(mems), pairs, matched);
    forall i: nat, j: nat | Contradict(mems, how, i, j) ensures InSome(pairs, i) && InSome(pairs, j) {
      if Exact(how, mems[i], mems[j]) {
        assert SameGroup(mems, exactKey, i, j) && Covered(mems, ClassifyExact, i, j, exact);
        assert Reports(mems, ClassifyExact, i, j);
      } else {
        assert SameGroup(mems, subjectKey, i, j) && Covered(mems, fuzzy, i, j, matched);
        assert Reports(mems, fuzzy, i, j);
      }
      Found(Ids(mems), pairs, matched, i);
      Found(Ids(mems), pairs, matched, j);
    }
  }

  ghost predicate InSome(pairs: seq<Pair>, i: nat) {
    exists k :: 0 <= k < |pairs| && (pairs[k].a == i || pairs[k].b == i)
  }

  /** In a pair or not does not depend on how the pairs were found. */
  lemma InPairsIsDetermined(mems: seq<Memory>, how: Reading, pairs: seq<Pair>, i: nat)
    requires AllSound(mems, how, pairs)
    requires forall i, j :: Contradict(mems, how, i, j) ==> InSome(pairs, i) && InSome(pairs, j)
    ensures InSome(pairs, i) <==> exists j :: Contradict(mems, how, i, j) || Contradict(mems, how, j, i)
  {
    if k :| 0 <= k < |pairs| && (pairs[k].a == i || pairs[k].b == i) {
      assert pairs[k] in pairs;
      assert Contradict(mems, how, pairs[k].a, pairs[k].b);
    }
  }

  lemma Found(ids: seq<nat>, pairs: seq<Pair>, matched: set<nat>, i: nat)
    requires Distinct(ids) && Matches(ids, pairs, matched) && i < |ids| && ids[i] in matched
    ensures InSome(pairs, i)
  {
    var k :| 0 <= k < |pairs| && Has(ids, pairs[k], ids[i]);
    assert pairs[k].a == i || pairs[k].b == i;
  }

  lemma MatchedAreFew(ids: seq<nat>, pairs: seq<Pair>, matched: set<nat>)
    requires Matches(ids, pairs, matched)
    ensures |matched| <= |ids|
  {
    var all := Elements(ids);
    forall id | id in matched ensures id in all { var k :| 0 <= k < |pairs| && Has(ids, pairs[k], id); }
    IdsAreFew(ids);
    SubsetIsSmaller(matched, all);
  }

  function Elements(ids: seq<nat>): set<nat> {
    set id | id in ids
  }

  lemma {:induction false} IdsAreFew(ids: seq<nat>)
    ensures |Elements(ids)| <= |ids|
  {
    if ids != [] {
      var n := |ids| - 1;
      IdsAreFew(ids[..n]);
      assert ids == ids[..n] + [ids[n]];
      assert Elements(ids) == Elements(ids[..n]) + {ids[n]};
    }
  }

  lemma {:induction false} SubsetIsSmaller(a: set<nat>, b: set<nat>)
    requires a <= b
    ensures |a| <= |b|
    decreases a
  {
    if x :| x in a { SubsetIsSmaller(a - {x}, b - {x}); }
  }

  // ----- Facts that contradict each other, by their fields

  predicate SameSubject(how: Reading, a: Memory, b: Memory) {
    a.subject.Some? && b.subject.Some? && Lower(how.unicode, a.subject.value) == Lower(how.unicode, b.subject.value)
  }

  /** With one subject and two objects: one normalised predicate, or two that are alike, whatever the raw ones are. */
  lemma NormalisedContradict(mems: seq<Memory>, how: Reading, i: nat, j: nat)
    requires i < j < |mems| && SameSubject(how, mems[i], mems[j])
    requires mems[i].obj.Some? && mems[j].obj.Some? && mems[i].obj != mems[j].obj
    requires mems[i].normalized.Some? && mems[j].normalized.Some?
    ensures var p, q := mems[i].normalized.value, mems[j].normalized.value;
            Contradict(mems, how, i, j) <==> p == q || how.score(p, q) > 0.75
  {
  }

  /** Without normalised ones: raw predicates that are the same in lower case, or alike as they are. */
  lemma RawContradict(mems: seq<Memory>, how: Reading, i: nat, j: nat)
    requires i < j < |mems| && SameSubject(how, mems[i], mems[j])
    requires mems[i].obj.Some? && mems[j].obj.Some? && mems[i].obj != mems[j].obj
    requires mems[i].normalized.None? && mems[j].normalized.None? && mems[i].relation.Some? && mems[j].relation.Some?
    ensures var p, q := mems[i].relation.value, mems[j].relation.value;
            Contradict(mems, how, i, j) <==> Lower(how.unicode, p) == Lower(how.unicode, q) || how.score(p, q) > 0.75
  {
  }

  /** Facts about other subjects, or with one object, do not contradict each other. */
  lemma OthersDoNotContradict(mems: seq<Memory>, how: Reading, i: nat, j: nat)
    requires i < j < |mems| && (!SameSubject(how, mems[i], mems[j]) || mems[i].obj == mems[j].obj)
    ensures !Contradict(mems, how, i, j)
  {
  }

  // ----- What the two passes leave to each other

  /** Two facts about one subject with different objects, whose predicates are equal in some reading, or similar. */
  predicate Opposed(how: Reading, a: Memory, b: Memory) {
    && SubjectKey(how, a).Some? && SubjectKey(how, a) == SubjectKey(how, b) && EffectiveObject(a) != EffectiveObject(b)
    && (EffectivePredicate(a) == EffectivePredicate(b) || Exact(how, a, b) || Fuzzy(how, a, b))
  }

  predicate HasPredicate(m: Memory) {
    m.normalized.Some? || m.relation.Some?
  }

  /**
   The fuzzy pass reads their predicates as equal and leaves them to the exact pass; but one has no
   predicate, or the predicate is not lower-case and one has it as normalised and the other as raw,
   and so they are in two groups there.
   */
  predicate Split(how: Reading, a: Memory, b: Memory) {
    var p := EffectivePredicate(a);
    && p == EffectivePredicate(b)
    && (|| !HasPredicate(a) || !HasPredicate(b)
        || (a.normalized.Some? != b.normalized.Some? && Lower(how.unicode, p) != p))
  }

  /** Of any list, two opposed facts are missed just if the two passes have them split. */
  lemma EqualPredicatesAreMissedIff(mems: seq<Memory>, how: Reading, i: nat, j: nat)
    requires i < j < |mems| && Opposed(how, mems[i], mems[j])
    ensures !Contradict(mems, how, i, j) <==> Split(how, mems[i], mems[j])
  {
  }

  predicate FoundWith(mems: seq<Memory>, how: Reading, i: nat, j: nat) {
    i < j < |mems| && Opposed(how, mems[i], mems[j]) && !Split(how, mems[i], mems[j])
  }

  /** And a fact is in some reported pair just if it is opposed to another that it is not split from. */
  lemma PairedIff(mems: seq<Memory>, how: Reading, pairs: seq<Pair>, i: nat)
    requires AllSound(mems, how, pairs)
    requires forall i, j :: Contradict(mems, how, i, j) ==> InSome(pairs, i) && InSome(pairs, j)
    ensures InSome(pairs, i) <==> exists j :: FoundWith(mems, how, i, j) || FoundWith(mems, how, j, i)
  {
    InPairsIsDetermined(mems, how, pairs, i);
    forall k: nat, l: nat ensures Contradict(mems, how, k, l) <==> FoundWith(mems, how, k, l) {
      if k < l < |mems| && Opposed(how, mems[k], mems[l]) { EqualPredicatesAreMissedIff(mems, how, k, l); }
    }
  }

  /** Such a predicate is any that has a capital. */
  lemma CapitalsAreMissed(how: Reading)
    requires how.unicode.fold('U') == ['u']
    ensures var a := Memory(1, Some("s"), None, Some("Uses"), Some("x"));
            var b := Memory(2, Some("s"), Some("Uses"), None, Some("y"));
            Opposed(how, a, b) && !Contradict([a, b], how, 0, 1)
  {
    var a := Memory(1, Some("s"), None, Some("Uses"), Some("x"));
    var b := Memory(2, Some("s"), Some("Uses"), None, Some("y"));
    LowerBegins(how.unicode, "Uses", 4);
    EqualPredicatesAreMissedIff([a, b], how, 0, 1);
  }
}
