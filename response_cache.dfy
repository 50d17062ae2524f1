/**
 * The server's in-memory audio cache: a JavaScript `Map` used as a bounded
 * recency list. A `Map` iterates its keys in insertion order; `set` on a key
 * already present replaces the value without moving the key, and `delete`
 * removes the key from the order. `cacheGet` promotes a key by deleting and
 * re-setting it, `cacheSet` evicts the first key once the map holds
 * `MaxCacheSize` entries.
 */
module ResponseCache {
  import opened Wrappers
  import opened Strings

  type Key = string

  /** The cached audio: base64 data, sample rate in Hz and channel count. */
  datatype Payload = Payload(data: string, sampleRate: int, channels: int)

  const MaxCacheSize: nat := 50

  /** `"<voiceName>|<text.trim()>"`. */
  function CacheKey(text: string, voiceName: string): Key {
    voiceName + "|" + JsTrim(text)
  }

  /** The abstract value of a `Map`: its keys in iteration order and its key/value pairs. */
  datatype CacheState = CacheState(order: seq<Key>, entries: map<Key, Payload>)

  const Empty := CacheState([], map[])

  predicate Distinct(s: seq<Key>) {
    forall i, j :: 0 <= i < j < |s| ==> s[i] != s[j]
  }

  /** What every `Map` satisfies: each key listed once, and exactly the keys of the entries. */
  predicate WellFormed(c: CacheState) {
    && Distinct(c.order)
    && (forall k :: k in c.order ==> k in c.entries)
    && (forall k :: k in c.entries ==> k in c.order)
  }

  /** `Map.size`. */
  function Size(c: CacheState): nat {
    |c.order|
  }

  /** The cache's invariant: a well-formed map of at most `MaxCacheSize` entries. */
  predicate ValidCache(c: CacheState) {
    WellFormed(c) && Size(c) <= MaxCacheSize
  }

  /** `s` with every occurrence of `k` left out, the rest in their order. */
  function Remove(s: seq<Key>, k: Key): (r: seq<Key>)
    ensures forall x :: x in r <==> x in s && x != k
    ensures |r| <= |s|
    decreases |s|
  {
    if s == [] then []
    else if s[0] == k then Remove(s[1..], k)
    else [s[0]] + Remove(s[1..], k)
  }

  /** `map.delete(k)`. */
  function MapDelete(c: CacheState, k: Key): CacheState {
    CacheState(Remove(c.order, k), c.entries - {k})
  }

  /** `map.set(k, v)`: a present key keeps its place, a new key goes last. */
  function MapSet(c: CacheState, k: Key, v: Payload): CacheState {
    if k in c.entries then CacheState(c.order, c.entries[k := v])
    else CacheState(c.order + [k], c.entries[k := v])
  }

  /** `cacheGet(key)`: the stored value and the promoted cache, or no value and no change. */
  function Lookup(c: CacheState, k: Key): (Option<Payload>, CacheState) {
    if k !in c.entries then (None, c)
    else
      var v := c.entries[k];
      (Some(v), MapSet(MapDelete(c, k), k, v))
  }

  /** `cacheSet(key, value)`: evict the first key when full, then `set`. */
  function Insert(c: CacheState, k: Key, v: Payload): CacheState {
    var c1 := if Size(c) >= MaxCacheSize then MapDelete(c, c.order[0]) else c;
    MapSet(c1, k, v)
  }

  // ---------------------------------------------------------------------------
  // Properties of the sequence helpers

  lemma {:induction false} RemoveAbsent(s: seq<Key>, k: Key)
    requires k !in s
    ensures Remove(s, k) == s
    decreases |s|
  {
    if s != [] {
      RemoveAbsent(s[1..], k);
    }
  }

  lemma {:induction false} RemoveDistinct(s: seq<Key>, k: Key)
    requires Distinct(s)
    ensures Distinct(Remove(s, k))
    ensures k in s ==> |Remove(s, k)| == |s| - 1
    ensures k !in s ==> |Remove(s, k)| == |s|
    decreases |s|
  {
    if s != [] {
      DistinctTail(s);
      RemoveDistinct(s[1..], k);
      if s[0] == k {
        RemoveAbsent(s[1..], k);
      } else {
        assert Remove(s, k) == [s[0]] + Remove(s[1..], k);
        ConsDistinct(s[0], Remove(s[1..], k));
      }
    }
  }

  /** The tail of a sequence without repetitions has none, and lacks the head. */
  lemma DistinctTail(s: seq<Key>)
    requires Distinct(s) && s != []
    ensures Distinct(s[1..]) && s[0] !in s[1..]
  {
    forall i, j | 0 <= i < j < |s[1..]| ensures s[1..][i] != s[1..][j] {
      assert s[1..][i] == s[i + 1] && s[1..][j] == s[j + 1];
    }
    forall i | 0 <= i < |s[1..]| ensures s[1..][i] != s[0] {
      assert s[1..][i] == s[i + 1];
    }
  }

  lemma ConsDistinct(x: Key, t: seq<Key>)
    requires Distinct(t) && x !in t
    ensures Distinct([x] + t)
  {
    var r := [x] + t;
    forall i, j | 0 <= i < j < |r| ensures r[i] != r[j] {
      if i == 0 {
        assert r[j] == t[j - 1] && r[j] in t;
      } else {
        assert r[i] == t[i - 1] && r[j] == t[j - 1];
      }
    }
  }


  /** Removing the first of distinct keys leaves the rest. */
  lemma RemoveFirst(s: seq<Key>)
    requires Distinct(s) && s != []
    ensures Remove(s, s[0]) == s[1..]
  {
    assert s[0] !in s[1..] by {
      forall i | 0 <= i < |s[1..]| ensures s[1..][i] != s[0] {
        assert s[1..][i] == s[i + 1];
      }
    }
    RemoveAbsent(s[1..], s[0]);
  }

  lemma {:induction false} RemoveAppend(s: seq<Key>, t: seq<Key>, k: Key)
    ensures Remove(s + t, k) == Remove(s, k) + Remove(t, k)
    decreases |s|
  {
    if s == [] {
      assert s + t == t;
    } else {
      assert (s + t)[1..] == s[1..] + t;
      RemoveAppend(s[1..], t, k);
    }
  }

  /** `Map.size`, the number of entries, is the length of the insertion order. */
  lemma SizeIsEntryCount(c: CacheState)
    requires WellFormed(c)
    ensures |c.entries| == Size(c)
  {
    DistinctCard(c.order);
    assert c.entries.Keys == set x | x in c.order;
  }

  lemma {:induction false} DistinctCard(s: seq<Key>)
    requires Distinct(s)
    ensures |set x | x in s| == |s|
    decreases |s|
  {
    if s != [] {
      var t := s[1..];
      assert Distinct(t) by {
        forall i, j | 0 <= i < j < |t| ensures t[i] != t[j] {
          assert t[i] == s[i + 1] && t[j] == s[j + 1];
        }
      }
      DistinctCard(t);
      assert s[0] !in t by {
        forall i | 0 <= i < |t| ensures t[i] != s[0] {
          assert t[i] == s[i + 1];
        }
      }
      assert (set x | x in s) == (set x | x in t) + {s[0]};
    }
  }

  lemma AppendFresh(s: seq<Key>, k: Key)
    requires Distinct(s) && k !in s
    ensures Distinct(s + [k])
  {
    forall i, j | 0 <= i < j < |s + [k]| ensures (s + [k])[i] != (s + [k])[j] {
      if j == |s| { assert (s + [k])[i] == s[i] && s[i] in s; }
    }
  }

  // ---------------------------------------------------------------------------
  // The cache's contract

  /** The empty map the module starts with satisfies the invariant. */
  lemma EmptyValid()
    ensures ValidCache(Empty) && Size(Empty) == 0
  {
  }

  /** A miss returns null and changes neither the entries nor their order. */
  lemma LookupMiss(c: CacheState, k: Key)
    requires k !in c.entries
    ensures Lookup(c, k) == (None, c)
  {
  }

  lemma PromoteShape(c: CacheState, k: Key)
    requires k in c.entries
    ensures Lookup(c, k) == (Some(c.entries[k]), CacheState(Remove(c.order, k) + [k], c.entries))
  {
    assert (c.entries - {k})[k := c.entries[k]] == c.entries;
  }

  /** A hit returns the stored value and moves its key last; the keys, the size and
      the relative order of the other keys stay as they were. */
  lemma LookupHit(c: CacheState, k: Key)
    requires ValidCache(c) && k in c.entries
    ensures Lookup(c, k).0 == Some(c.entries[k])
    ensures Lookup(c, k).1.entries == c.entries
    ensures Lookup(c, k).1.order == Remove(c.order, k) + [k]
    ensures Remove(Lookup(c, k).1.order, k) == Remove(c.order, k)
    ensures Size(Lookup(c, k).1) == Size(c)
    ensures ValidCache(Lookup(c, k).1)
  {
    var r := Remove(c.order, k);
    PromoteShape(c, k);
    RemoveDistinct(c.order, k);
    AppendFresh(r, k);
    RemoveAppend(r, [k], k);
    RemoveAbsent(r, k);
    assert Remove([k], k) == [];
  }

  /** After any insert into a valid cache the invariant still holds, so the size
      never exceeds `MaxCacheSize`, and the inserted key maps to the new value. */
  lemma InsertValid(c: CacheState, k: Key, v: Payload)
    requires ValidCache(c)
    ensures ValidCache(Insert(c, k, v))
    ensures k in Insert(c, k, v).entries && Insert(c, k, v).entries[k] == v
  {
    var c1 := if Size(c) >= MaxCacheSize then MapDelete(c, c.order[0]) else c;
    if Size(c) >= MaxCacheSize {
      EvictFirstWellFormed(c);
    }
    SetWellFormed(c1, k, v);
  }

  /** `delete` keeps a map well formed, removes exactly `k` from the entries, keeps the
      other keys in their order, and shrinks the map by one exactly when `k` was present. */
  lemma DeleteWellFormed(c: CacheState, k: Key)
    requires WellFormed(c)
    ensures WellFormed(MapDelete(c, k))
    ensures MapDelete(c, k).entries == c.entries - {k}
    ensures MapDelete(c, k).order == Remove(c.order, k)
    ensures Size(MapDelete(c, k)) == Size(c) - (if k in c.entries then 1 else 0)
  {
    RemoveDistinct(c.order, k);
  }

  /** Deleting the first key keeps a map well formed and shrinks it by one. */
  lemma EvictFirstWellFormed(c: CacheState)
    requires WellFormed(c) && c.order != []
    ensures WellFormed(MapDelete(c, c.order[0]))
    ensures Size(MapDelete(c, c.order[0])) == Size(c) - 1
  {
    DistinctTail(c.order);
    RemoveFirst(c.order);
  }

  /** `set` keeps a map well formed and grows it by one exactly for a new key. */
  lemma SetWellFormed(c: CacheState, k: Key, v: Payload)
    requires WellFormed(c)
    ensures WellFormed(MapSet(c, k, v))
    ensures Size(MapSet(c, k, v)) == Size(c) + (if k in c.entries then 0 else 1)
    ensures k in MapSet(c, k, v).entries && MapSet(c, k, v).entries[k] == v
  {
    if k !in c.entries {
      AppendFresh(c.order, k);
    }
  }

  /** A full cache loses exactly its first key before the insert, even when the
      inserted key is already present: the other entries survive and `k` maps to `v`. */
  lemma InsertEvictsOldest(c: CacheState, k: Key, v: Payload)
    requires ValidCache(c) && Size(c) >= MaxCacheSize
    ensures Insert(c, k, v).entries == (c.entries - {c.order[0]})[k := v]
    ensures k == c.order[0] || k !in c.entries ==> Insert(c, k, v).order == c.order[1..] + [k]
    ensures k != c.order[0] && k in c.entries ==> Insert(c, k, v).order == c.order[1..]
    ensures k != c.order[0] ==> c.order[0] !in Insert(c, k, v).entries
  {
    RemoveFirst(c.order);
  }

  /** Below capacity nothing is evicted: a present key gets the new value in place,
      a new key is appended last. */
  lemma InsertBelowCapacity(c: CacheState, k: Key, v: Payload)
    requires ValidCache(c) && Size(c) < MaxCacheSize
    ensures Insert(c, k, v).entries == c.entries[k := v]
    ensures k in c.entries ==> Insert(c, k, v).order == c.order
    ensures k !in c.entries ==> Insert(c, k, v).order == c.order + [k]
  {
  }

  /** Reading the oldest key of a full cache saves it: the next insert of a new
      key evicts the second-oldest instead. */
  lemma PromotedKeySurvivesEviction(c: CacheState, k: Key, v: Payload)
    requires ValidCache(c) && Size(c) == MaxCacheSize && k !in c.entries
    ensures var promoted := Lookup(c, c.order[0]).1;
      && c.order[0] in Insert(promoted, k, v).entries
      && c.order[1] !in Insert(promoted, k, v).entries
      && k in Insert(promoted, k, v).entries
  {
    var a := c.order[0];
    LookupHit(c, a);
    var promoted := Lookup(c, a).1;
    RemoveFirst(c.order);
    assert promoted.order == c.order[1..] + [a];
    assert promoted.order[0] == c.order[1];
    InsertEvictsOldest(promoted, k, v);
    assert c.order[1] != a;
  }

  // ---------------------------------------------------------------------------
  // Cache keys

  /** Texts that differ only in surrounding whitespace share a key. */
  lemma CacheKeyIgnoresSurroundingSpace(pre: string, text: string, post: string, voiceName: string)
    requires AllSpace(pre, JsWhitespace) && AllSpace(post, JsWhitespace)
    ensures CacheKey(pre + text + post, voiceName) == CacheKey(text, voiceName)
  {
    StripIgnoresSurroundingSpace(pre, text, post, JsWhitespace);
  }

  /** The first `|` of a key is the one after the voice name. */
  lemma KeySeparator(voiceName: string, rest: string)
    requires '|' !in voiceName
    ensures IndexOf(voiceName + "|" + rest, '|') == |voiceName|
  {
    var s := voiceName + "|" + rest;
    var i := IndexOf(s, '|');
    assert s[|voiceName|] == '|';
    assert s[..|voiceName|] == voiceName;
  }

  /** For voice names without a `|`, two keys are equal exactly when the voices and
      the trimmed texts are; in particular two different voices never share a key. */
  lemma CacheKeyInjective(text1: string, voice1: string, text2: string, voice2: string)
    requires '|' !in voice1 && '|' !in voice2
    ensures CacheKey(text1, voice1) == CacheKey(text2, voice2)
        <==> voice1 == voice2 && JsTrim(text1) == JsTrim(text2)
  {
    var t1, t2 := JsTrim(text1), JsTrim(text2);
    var k1, k2 := voice1 + "|" + t1, voice2 + "|" + t2;
    if k1 == k2 {
      KeySeparator(voice1, t1);
      KeySeparator(voice2, t2);
      assert |voice1| == |voice2|;
      assert voice1 == k1[..|voice1|] && voice2 == k2[..|voice2|];
      assert t1 == k1[|voice1| + 1..] && t2 == k2[|voice2| + 1..];
    }
  }

  // ---------------------------------------------------------------------------
  // The module-level `audioCache`, as an object owned by whoever handles requests

  class AudioCache {
    var order: seq<Key>
    var entries: map<Key, Payload>

    function State(): CacheState
      reads this
    {
      CacheState(order, entries)
    }

    ghost predicate Valid()
      reads this
    {
      ValidCache(State())
    }

    /** `new Map()`. */
    constructor ()
      ensures Valid() && State() == Empty
    {
      order, entries := [], map[];
    }

    /** `audioCache.delete(key)`. */
    method Delete(key: Key)
      modifies this
      ensures State() == MapDelete(old(State()), key)
    {
      order, entries := Remove(order, key), entries - {key};
    }

    /** `audioCache.set(key, value)`. */
    method Put(key: Key, value: Payload)
      modifies this
      ensures State() == MapSet(old(State()), key, value)
    {
      if key in entries {
        entries := entries[key := value];
      } else {
        order, entries := order + [key], entries[key := value];
      }
    }

    /** `cacheGet(key)`: on a hit, delete and re-set the key so that it moves last. */
    method Get(key: Key) returns (value: Option<Payload>)
      requires Valid()
      modifies this
      ensures Valid()
      ensures (value, State()) == Lookup(old(State()), key)
    {
      if key !in entries {
        return None;
      }
      LookupHit(State(), key);
      var v := entries[key];
      Delete(key);
      Put(key, v);
      value := Some(v);
    }

    /** `cacheSet(key, value)`: at capacity, delete the first key, then set. */
    method Set(key: Key, value: Payload)
      requires Valid()
      modifies this
      ensures Valid() && |entries| <= MaxCacheSize
      ensures State() == Insert(old(State()), key, value)
    {
      InsertValid(State(), key, value);
      SizeIsEntryCount(State());
      if |entries| >= MaxCacheSize {
        Delete(order[0]);
      }
      Put(key, value);
      SizeIsEntryCount(State());
    }
  }
}
