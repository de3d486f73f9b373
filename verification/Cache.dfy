/**
 The result cache of crates/core/src/cache.rs: an LRU of recall results, each with the generation
 of its namespace that was current before the results were computed. `CacheRuns` has the recalls
 and the writers that share it.
 */
module Cache {
  import opened Wrappers

  /** A recall's cache key; `plain` says that it asks for rows that are valid now. */
  datatype Key = Key(ns: string, plain: bool, rest: nat)

  datatype Entry = Entry(generation: nat, results: set<nat>)

  type Slot = (Key, Entry)

  // ----- An LRU as a sequence, the latest put first

  function Find(slots: seq<Slot>, key: Key): Option<Entry> {
    if slots == [] then None else if slots[0].0 == key then Some(slots[0].1) else Find(slots[1..], key)
  }

  function Without(slots: seq<Slot>, key: Key): seq<Slot> {
    if slots == [] then []
    else if slots[0].0 == key then Without(slots[1..], key)
    else [slots[0]] + Without(slots[1..], key)
  }

  function Take<T>(xs: seq<T>, n: nat): seq<T> {
    if |xs| <= n then xs else xs[..n]
  }

  function Put(slots: seq<Slot>, capacity: nat, key: Key, entry: Entry): seq<Slot> {
    Take([(key, entry)] + Without(slots, key), capacity)
  }

  predicate OneSlotEach(slots: seq<Slot>) {
    forall i, j :: 0 <= i < j < |slots| ==> slots[i].0 != slots[j].0
  }

  lemma {:induction false} WithoutDrops(slots: seq<Slot>, key: Key)
    ensures |Without(slots, key)| <= |slots|
    ensures forall slot :: slot in Without(slots, key) <==> slot in slots && slot.0 != key
  {
    if slots != [] {
      WithoutDrops(slots[1..], key);
      assert slots == [slots[0]] + slots[1..];
    }
  }

  lemma {:induction false} WithoutIsDistinct(slots: seq<Slot>, key: Key)
    requires OneSlotEach(slots)
    ensures OneSlotEach(Without(slots, key))
  {
    if slots != [] {
      WithoutIsDistinct(slots[1..], key);
      if slots[0].0 != key {
        var rest := Without(slots[1..], key);
        WithoutDrops(slots[1..], key);
        forall i | 0 <= i < |rest| ensures rest[i].0 != slots[0].0 { assert rest[i] in rest && rest[i] in slots[1..]; }
      }
    }
  }

  lemma {:induction false} WithoutNothing(slots: seq<Slot>, key: Key)
    requires forall i :: 0 <= i < |slots| ==> slots[i].0 != key
    ensures Without(slots, key) == slots
  {
    if slots != [] { WithoutNothing(slots[1..], key); }
  }

  lemma {:induction false} WithoutOne(slots: seq<Slot>, i: nat)
    requires OneSlotEach(slots) && i < |slots|
    ensures Without(slots, slots[i].0) == slots[..i] + slots[i + 1..]
  {
    if i == 0 {
      WithoutNothing(slots[1..], slots[0].0);
    } else {
      WithoutOne(slots[1..], i - 1);
      assert slots[..i] == [slots[0]] + slots[1..][..i - 1];
    }
  }

  lemma {:induction false} FindIs(slots: seq<Slot>, key: Key)
    ensures Find(slots, key).None? <==> forall i :: 0 <= i < |slots| ==> slots[i].0 != key
    ensures Find(slots, key).Some? ==> (key, Find(slots, key).value) in slots
    ensures OneSlotEach(slots) ==> forall e :: (key, e) in slots ==> Find(slots, key) == Some(e)
  {
    if slots != [] {
      FindIs(slots[1..], key);
      assert forall i :: 0 < i < |slots| ==> slots[i] == slots[1..][i - 1];
    }
  }

  lemma {:induction false} FindWithout(slots: seq<Slot>, key: Key, other: Key)
    requires other != key
    ensures Find(Without(slots, key), other) == Find(slots, other)
  {
    if slots != [] { FindWithout(slots[1..], key, other); }
  }

  lemma {:induction false} FindTake(slots: seq<Slot>, n: nat, key: Key)
    requires |slots| <= n + 1
    ensures Find(Take(slots, n), key) in {None, Find(slots, key)}
    ensures Find(Take(slots, n), key) != Find(slots, key) ==> |slots| == n + 1 && slots[n].0 == key
  {
    if |slots| == n + 1 && n > 0 {
      FindTake(slots[1..], n - 1, key);
      assert slots[..n][1..] == slots[1..][..n - 1];
    } else if |slots| == 1 {
      assert Find(slots[1..], key).None?;
    }
  }

  lemma WithoutIsShorter(slots: seq<Slot>, key: Key)
    requires OneSlotEach(slots)
    ensures if Find(slots, key).Some? then |Without(slots, key)| == |slots| - 1 else Without(slots, key) == slots
  {
    FindIs(slots, key);
    if i :| 0 <= i < |slots| && slots[i].0 == key { WithoutOne(slots, i); } else { WithoutNothing(slots, key); }
  }

  lemma PutIsDistinct(slots: seq<Slot>, capacity: nat, key: Key, entry: Entry)
    requires OneSlotEach(slots)
    ensures OneSlotEach(Put(slots, capacity, key, entry))
  {
    var rest := Without(slots, key);
    WithoutDrops(slots, key);
    WithoutIsDistinct(slots, key);
    forall i | 0 <= i < |rest| ensures rest[i].0 != key { assert rest[i] in rest; }
  }

  /** A put keeps every other slot, but for the oldest when the cache is full. */
  lemma PutIs(slots: seq<Slot>, capacity: nat, key: Key, entry: Entry, other: Key)
    requires OneSlotEach(slots) && |slots| <= capacity && capacity > 0
    ensures var slots' := Put(slots, capacity, key, entry);
            && |slots'| <= capacity && Find(slots', key) == Some(entry)
            && (other != key ==> Find(slots', other) in {None, Find(slots, other)})
            && (other != key && Find(slots', other) != Find(slots, other) ==>
                  |slots| == capacity && Find(slots, key).None? && slots[|slots| - 1].0 == other)
  {
    var all := [(key, entry)] + Without(slots, key);
    WithoutIsShorter(slots, key);
    assert Take(all, capacity)[0] == (key, entry);
    if other != key {
      FindWithout(slots, key, other);
      assert all[1..] == Without(slots, key);
      FindTake(all, capacity, other);
    }
  }

  // ----- What is in the cache after any puts

  type PutCall = (Key, Entry)

  function Puts(capacity: nat, puts: seq<PutCall>): seq<Slot> {
    if puts == [] then []
    else Put(Puts(capacity, puts[..|puts| - 1]), capacity, puts[|puts| - 1].0, puts[|puts| - 1].1)
  }

  /** The last put of each key, the latest first. */
  function Latest(puts: seq<PutCall>): seq<Slot> {
    if puts == [] then []
    else [puts[|puts| - 1]] + Without(Latest(puts[..|puts| - 1]), puts[|puts| - 1].0)
  }

  lemma {:induction false} TakeWithout(slots: seq<Slot>, key: Key, n: nat)
    requires OneSlotEach(slots)
    ensures Take(Without(Take(slots, n + 1), key), n) == Take(Without(slots, key), n)
  {
    if |slots| > n + 1 {
      if n == 0 {
        assert Take(Without(slots, key), 0) == [];
      } else if slots[0].0 == key {
        WithoutNothing(slots[1..], key);
        WithoutNothing(slots[1..][..n], key);
        assert slots[..n + 1][1..] == slots[1..][..n];
      } else {
        TakeWithout(slots[1..], key, n - 1);
        assert slots[..n + 1][1..] == slots[1..][..n];
        var a, b := Without(slots[1..][..n], key), Without(slots[1..], key);
        assert Take([slots[0]] + a, n) == [slots[0]] + Take(a, n - 1);
        assert Take([slots[0]] + b, n) == [slots[0]] + Take(b, n - 1);
      }
    }
  }

  lemma {:induction false} LatestIsDistinct(puts: seq<PutCall>)
    ensures OneSlotEach(Latest(puts))
  {
    if puts != [] {
      var last := puts[|puts| - 1];
      LatestIsDistinct(puts[..|puts| - 1]);
      var rest := Without(Latest(puts[..|puts| - 1]), last.0);
      WithoutDrops(Latest(puts[..|puts| - 1]), last.0);
      WithoutIsDistinct(Latest(puts[..|puts| - 1]), last.0);
      forall i | 0 <= i < |rest| ensures rest[i].0 != last.0 { assert rest[i] in rest; }
    }
  }

  /** Reads do not count as use: the cache holds the most recently put keys, as many as fit. */
  lemma {:induction false} CacheHoldsLatestPuts(capacity: nat, puts: seq<PutCall>)
    requires capacity > 0
    ensures Puts(capacity, puts) == Take(Latest(puts), capacity)
  {
    if puts != [] {
      var n := |puts| - 1;
      CacheHoldsLatestPuts(capacity, puts[..n]);
      LatestIsDistinct(puts[..n]);
      var latest := Latest(puts[..n]);
      TakeWithout(latest, puts[n].0, capacity - 1);
      var a, b := Without(Take(latest, capacity), puts[n].0), Without(latest, puts[n].0);
      assert Take([puts[n]] + a, capacity) == [puts[n]] + Take(a, capacity - 1);
      assert Take([puts[n]] + b, capacity) == [puts[n]] + Take(b, capacity - 1);
    }
  }

  // ----- The object

  class RecallCache {
    const capacity: nat
    var results: seq<Slot>
    var generations: map<string, nat>
    var hits: nat
    var misses: nat

    ghost predicate Valid()
      reads this
    {
      capacity > 0 && OneSlotEach(results) && |results| <= capacity
    }

    constructor (capacity: nat)
      requires capacity > 0
      ensures Valid() && this.capacity == capacity && results == [] && generations == map[] && hits == misses == 0
    {
      this.capacity, results, generations, hits, misses := capacity, [], map[], 0, 0;
    }

    ghost function GenerationOf(ns: string): nat
      reads this
    {
      if ns in generations then generations[ns] else 0
    }

    method Generation(ns: string) returns (generation: nat)
      ensures generation == GenerationOf(ns)
    {
      generation := if ns in generations then generations[ns] else 0;
    }

    method BumpGeneration(ns: string)
      modifies this`generations
      ensures GenerationOf(ns) == old(GenerationOf(ns)) + 1
      ensures forall other :: other != ns ==> GenerationOf(other) == old(GenerationOf(other))
    {
      generations := generations[ns := (if ns in generations then generations[ns] else 0) + 1];
    }

    /** A hit needs an entry of the current generation; nothing is moved or dropped. */
    method GetResults(key: Key, ns: string) returns (found: Option<set<nat>>)
      modifies this`hits, this`misses
      ensures found.Some? <==>
                Find(results, key).Some? && Find(results, key).value.generation == GenerationOf(ns)
      ensures found.Some? ==> found.value == Find(results, key).value.results
      ensures hits == old(hits) + (if found.Some? then 1 else 0)
      ensures misses == old(misses) + (if found.Some? then 0 else 1)
    {
      var current := Generation(ns);
      var entry := Find(results, key);
      if entry.Some? && entry.value.generation == current {
        hits := hits + 1;
        found := Some(entry.value.results);
      } else {
        misses := misses + 1;
        found := None;
      }
    }

    method PutResults(key: Key, found: set<nat>, generation: nat)
      requires Valid()
      modifies this`results
      ensures Valid() && results == Put(old(results), capacity, key, Entry(generation, found))
      ensures Find(results, key) == Some(Entry(generation, found))
    {
      PutIsDistinct(results, capacity, key, Entry(generation, found));
      PutIs(results, capacity, key, Entry(generation, found), key);
      results := Put(results, capacity, key, Entry(generation, found));
    }
  }
}
