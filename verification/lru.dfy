/**
 * The least-recently-used cache of hashicorp/golang-lru (`simplelru.LRU`, which
 * `lru.NewWithEvict` wraps), by its documented contract: a fixed positive
 * capacity, `Get` marks the key most recently used, and `Add` of a new key that
 * overflows the capacity removes the least recently used entry and hands it to
 * the eviction hook.
 *
 * The recency list is a sequence ordered from least to most recently used.
 */
module Lru {
  import opened Wrappers
  import opened GoText

  type Key = Str

  /** A stored value: the cache holds `interface{}`; a string is a file path. */
  datatype Value = Path(path: Str) | NonString

  /** The key and value handed to the eviction hook. */
  datatype Entry = Entry(key: Key, value: Value)

  datatype LruState = LruState(order: seq<Key>, items: map<Key, Value>)

  predicate Distinct(s: seq<Key>) {
    forall i, j | 0 <= i < j < |s| :: s[i] != s[j]
  }

  /** The cache's invariant: at most `size` entries, listed once each in the recency order. */
  ghost predicate Valid(s: LruState, size: int) {
    && size > 0
    && |s.order| <= size
    && Distinct(s.order)
    && (forall k :: k in s.items <==> k in s.order)
  }

  function Empty(): (r: LruState)
    ensures forall size | size > 0 :: Valid(r, size)
  {
    LruState([], map[])
  }

  /** The recency order with k taken out. */
  function Without(order: seq<Key>, k: Key): (r: seq<Key>)
    ensures forall x :: x in r <==> x in order && x != k
    ensures Distinct(order) ==> Distinct(r)
    ensures Distinct(order) && k in order ==> |r| == |order| - 1
    ensures k !in order ==> r == order
  {
    if order == [] then []
    else if order[0] == k then Without(order[1..], k)
    else
      var rest := Without(order[1..], k);
      assert Distinct(order) ==> Distinct([order[0]] + rest) by {
        if Distinct(order) {
          DistinctTail(order);
          DistinctPrepend(order[0], rest);
        }
      }
      [order[0]] + rest
  }

  /** Get: the value for key, if present; a hit moves key to the most recently used end. */
  function Lookup(s: LruState, key: Key): (r: (Option<Value>, LruState))
    ensures r.0.Some? <==> key in s.items
    ensures r.0.Some? ==> r.0.value == s.items[key]
    ensures r.1.items == s.items
  {
    if key in s.items then (Some(s.items[key]), LruState(Without(s.order, key) + [key], s.items))
    else (None, s)
  }

  /**
   * Add: an existing key is updated and moved to the most recently used end; a
   * new key is appended, and if that overflows the capacity the least recently
   * used entry is removed and returned for the eviction hook.
   */
  function Insert(s: LruState, size: int, key: Key, value: Value): (r: (LruState, Option<Entry>))
    requires Valid(s, size)
    ensures key in r.0.items && r.0.items[key] == value
    ensures r.1.Some? ==> r.1.value.key != key && r.1.value.key in s.items
    ensures r.1.Some? ==> r.1.value.value == s.items[r.1.value.key] && r.1.value.key !in r.0.items
  {
    if key in s.items then (LruState(Without(s.order, key) + [key], s.items[key := value]), None)
    else
      var order := s.order + [key];
      var items := s.items[key := value];
      if |order| > size then
        (LruState(order[1..], items - {order[0]}), Some(Entry(order[0], items[order[0]])))
      else (LruState(order, items), None)
  }

  // -------------------------------------------------------------------- lemmas

  lemma {:induction false} DistinctAppend(s: seq<Key>, k: Key)
    requires Distinct(s) && k !in s
    ensures Distinct(s + [k])
  {
    var t := s + [k];
    forall i, j | 0 <= i < j < |t| ensures t[i] != t[j] {
      if j == |s| {
        assert t[i] == s[i];
      }
    }
  }

  lemma {:induction false} DistinctPrepend(k: Key, s: seq<Key>)
    requires Distinct(s) && k !in s
    ensures Distinct([k] + s)
  {
    var t := [k] + s;
    forall i, j | 0 <= i < j < |t| ensures t[i] != t[j] {
      assert t[j] == s[j - 1];
      if i > 0 {
        assert t[i] == s[i - 1];
      }
    }
  }

  lemma DistinctTail(s: seq<Key>)
    requires Distinct(s) && |s| > 0
    ensures Distinct(s[1..]) && s[0] !in s[1..]
  {
    assert forall i, j | 0 <= i < j < |s| - 1 :: s[1..][i] == s[i + 1] && s[1..][j] == s[j + 1];
  }

  /**
   * Taking out a key listed once removes exactly its position: the keys before
   * and after it keep their order.
   */
  lemma {:induction false} WithoutAt(order: seq<Key>, i: nat)
    requires i < |order| && Distinct(order)
    ensures Without(order, order[i]) == order[..i] + order[i + 1..]
  {
    var k := order[i];
    DistinctTail(order);
    if i == 0 {
      assert Without(order[1..], k) == order[1..];
    } else {
      assert order[1..][i - 1] == k;
      WithoutAt(order[1..], i - 1);
      assert order[..i] == [order[0]] + order[1..][..i - 1];
      assert order[i + 1..] == order[1..][i..];
    }
  }

  /**
   * Get keeps the invariant; a hit leaves key the most recently used and every
   * other key in its old relative order; a miss changes nothing.
   */
  lemma LookupMeaning(s: LruState, size: int, key: Key)
    requires Valid(s, size)
    ensures Valid(Lookup(s, key).1, size)
    ensures key in s.items ==> Lookup(s, key).1.order[|s.order| - 1] == key
    ensures key in s.items ==> exists i | 0 <= i < |s.order| && s.order[i] == key ::
      Lookup(s, key).1.order == s.order[..i] + s.order[i + 1..] + [key]
    ensures key !in s.items ==> Lookup(s, key).1 == s
  {
    if key in s.items {
      DistinctAppend(Without(s.order, key), key);
      var i :| 0 <= i < |s.order| && s.order[i] == key;
      WithoutAt(s.order, i);
    }
  }

  /**
   * Add keeps the invariant (so the entry count never exceeds the capacity),
   * stores value under key, keeps every other value, and makes key the most
   * recently used. It evicts exactly when key is new and the cache is full; the
   * victim is the least recently used entry, never key itself.
   */
  lemma {:induction false} InsertMeaning(s: LruState, size: int, key: Key, value: Value)
    requires Valid(s, size)
    ensures var (t, evicted) := Insert(s, size, key, value);
      && Valid(t, size)
      && t.order[|t.order| - 1] == key
      && (evicted.Some? <==> key !in s.items && |s.order| == size)
      && (evicted.Some? ==> evicted.value == Entry(s.order[0], s.items[s.order[0]]) && evicted.value.key != key)
      && (forall k | k != key :: k in t.items <==> k in s.items && (evicted.None? || k != evicted.value.key))
      && (forall k | k in t.items && k != key :: t.items[k] == s.items[k])
      && (key in s.items ==> exists i | 0 <= i < |s.order| && s.order[i] == key ::
            t.order == s.order[..i] + s.order[i + 1..] + [key])
      && (key !in s.items && evicted.None? ==> t.order == s.order + [key])
      && (evicted.Some? ==> t.order == s.order[1..] + [key])
  {
    var (t, evicted) := Insert(s, size, key, value);
    if key in s.items {
      DistinctAppend(Without(s.order, key), key);
      var i :| 0 <= i < |s.order| && s.order[i] == key;
      WithoutAt(s.order, i);
    } else {
      var order := s.order + [key];
      DistinctAppend(s.order, key);
      if |order| > size {
        DistinctTail(order);
        assert order[1..][|order| - 2] == key;
        assert forall x :: x in order[1..] <==> x in order && x != order[0];
        assert order[1..] == s.order[1..] + [key];
      }
    }
  }

  /**
   * The recency scenario: with capacity 2, add a, add b, get a, then add c —
   * the victim is b, the entry used least recently, and a and c stay, with c
   * now the most recently used.
   */
  lemma RecencyScenario(a: Key, b: Key, c: Key, va: Value, vb: Value, vc: Value)
    requires a != b && b != c && a != c
    ensures var s1 := Insert(Empty(), 2, a, va).0;
      var s2 := Insert(s1, 2, b, vb).0;
      var s3 := Lookup(s2, a).1;
      Valid(s3, 2) && Insert(s3, 2, c, vc).1 == Some(Entry(b, vb))
      && Insert(s3, 2, c, vc).0 == LruState([a, c], map[a := va, c := vc])
  {
    FillTwo(a, b, va, vb);
    TouchFirst(a, b, va, vb);
    EvictFirst(b, a, c, vb, va, vc);
  }

  /** Getting the older of two keys makes it the most recently used. */
  lemma TouchFirst(a: Key, b: Key, va: Value, vb: Value)
    requires a != b
    ensures Lookup(LruState([a, b], map[a := va, b := vb]), a).1 == LruState([b, a], map[a := va, b := vb])
    ensures Valid(LruState([b, a], map[a := va, b := vb]), 2)
  {
    WithoutAt([a, b], 0);
    assert [a, b][1..] == [b];
  }

  /** Adding a third key to a full cache of capacity 2 evicts the older entry. */
  lemma EvictFirst(x: Key, y: Key, z: Key, vx: Value, vy: Value, vz: Value)
    requires x != y && y != z && x != z
    ensures Insert(LruState([x, y], map[y := vy, x := vx]), 2, z, vz)
      == (LruState([y, z], map[y := vy, z := vz]), Some(Entry(x, vx)))
  {
    assert Valid(LruState([x, y], map[y := vy, x := vx]), 2);
    assert ([x, y] + [z])[1..] == [y, z];
    assert map[y := vy, x := vx, z := vz] - {x} == map[y := vy, z := vz];
  }

  /** Adding two distinct keys to an empty cache of capacity 2 lists them in order. */
  lemma FillTwo(a: Key, b: Key, va: Value, vb: Value)
    requires a != b
    ensures Insert(Empty(), 2, a, va).0 == LruState([a], map[a := va])
    ensures Insert(LruState([a], map[a := va]), 2, b, vb).0 == LruState([a, b], map[a := va, b := vb])
    ensures Valid(LruState([a, b], map[a := va, b := vb]), 2)
  {
    assert [a] + [b] == [a, b];
  }
}
