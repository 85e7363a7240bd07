/**
 * cmd/main.go: the cache the service builds at start-up. `lru.NewWithEvict`
 * creates an LRU cache of `cache-size` entries (5 unless the flag says
 * otherwise) whose eviction hook removes the evicted entry's file when the
 * entry's value is a string; a failed removal, like a failed construction, ends
 * the process through `logger.Fatalf`.
 */
module Startup {
  import opened Wrappers
  import opened GoText
  import opened Errors
  import opened FileSystem
  import opened Lru

  /** The default of the `cache-size` flag. */
  const DefaultCacheSize: int := 5

  /**
   * The eviction hook's effect: a string value's file is removed; any other value
   * leaves the disk alone. The second component is the fatal error the hook
   * ends the process with, if the removal fails.
   */
  function Evict(files: Files, value: Value, removeFault: Option<Error>): (r: (Files, Option<Error>))
    ensures value.NonString? ==> r == (files, None)
    ensures value.Path? ==> (r.1.None? <==> value.path in files && removeFault.None?)
    ensures value.Path? && r.1.None? ==> r.0 == files - {value.path}
    ensures r.1.Some? ==>
      r.0 == files && r.1.value.Wrapped? && r.1.value.context == Lit("failed to remove item from cache")
  {
    if value.NonString? then (files, None)
    else
      var (after, err) := RemoveResult(files, value.path, removeFault);
      if err.Some? then (files, Some(Wrapped(Lit("failed to remove item from cache"), err.value)))
      else (after, None)
  }

  /** Eviction removes only the evicted entry's file: every other file keeps its contents. */
  lemma EvictTouchesOnlyItsFile(files: Files, value: Value, removeFault: Option<Error>, other: Str)
    requires other in files && (value.NonString? || other != value.path)
    ensures other in Evict(files, value, removeFault).0
    ensures Evict(files, value, removeFault).0[other] == files[other]
  {
  }

  /** The text `logger.Fatalf("failed to setup cache %v", err)` logs before the process exits. */
  function SetupFailure(cause: Str): Error {
    Failure(Lit("failed to setup cache ") + cause)
  }

  /**
   * The cache `lru.NewWithEvict(size, hook)` returns, with main.go's hook built
   * in: Get and Add keep the LRU invariant, and an eviction runs the hook on the
   * shared disk before Add returns.
   */
  class Cache {
    const size: int
    const disk: Disk
    var order: seq<Key>
    var items: map<Key, Value>

    function State(): LruState
      reads this
    {
      LruState(order, items)
    }

    ghost predicate Valid()
      reads this
    {
      Lru.Valid(State(), size)
    }

    constructor(size: int, disk: Disk)
      requires size > 0
      ensures Valid() && State() == Empty()
      ensures this.size == size && this.disk == disk
    {
      this.size := size;
      this.disk := disk;
      order := [];
      items := map[];
    }

    /** Get: the stored value, if any; a hit becomes the most recently used entry. */
    method Get(key: Key) returns (v: Option<Value>)
      requires Valid()
      modifies this
      ensures Valid()
      ensures (v, State()) == Lookup(old(State()), key)
    {
      LookupMeaning(State(), size, key);
      if key in items {
        v := Some(items[key]);
        order := Without(order, key) + [key];
      } else {
        v := None;
      }
    }

    /**
     * Add: store value under key as the most recently used entry; when that
     * overflows the capacity, drop the least recently used entry and run the
     * eviction hook on it. `fatal` is the error the hook ends the process with.
     */
    method Add(key: Key, value: Value, removeFault: Option<Error>) returns (fatal: Option<Error>)
      requires Valid()
      modifies this, disk
      ensures Valid()
      ensures State() == Insert(old(State()), size, key, value).0
      ensures var evicted := Insert(old(State()), size, key, value).1;
        && (evicted.None? ==> disk.files == old(disk.files) && fatal.None?)
        && (evicted.Some? ==> (disk.files, fatal) == Evict(old(disk.files), evicted.value.value, removeFault))
    {
      InsertMeaning(State(), size, key, value);
      if key in items {
        order := Without(order, key) + [key];
        items := items[key := value];
        fatal := None;
      } else {
        order := order + [key];
        items := items[key := value];
        fatal := None;
        if |order| > size {
          var oldest := order[0];
          var victim := items[oldest];
          order := order[1..];
          items := items - {oldest};
          fatal := OnEvict(victim, removeFault);
        }
      }
    }

    /** main.go's hook: remove a string value's file; a failed removal is fatal. */
    method OnEvict(value: Value, removeFault: Option<Error>) returns (fatal: Option<Error>)
      modifies disk
      ensures (disk.files, fatal) == Evict(old(disk.files), value, removeFault)
    {
      fatal := None;
      if value.Path? {
        var err := disk.Remove(value.path, removeFault);
        if err.Some? {
          fatal := Some(Wrapped(Lit("failed to remove item from cache"), err.value));
        }
      }
    }
  }

  /**
   * main.go's cache setup: `lru.NewWithEvict(cacheSize, hook)`, which refuses a
   * size that is not positive with "must provide a positive size"; main then
   * ends the process with "failed to setup cache <err>".
   */
  method SetupCache(cacheSize: int, disk: Disk) returns (cache: Cache?, fatal: Option<Error>)
    ensures cacheSize <= 0 ==> cache == null && fatal == Some(SetupFailure(Lit("must provide a positive size")))
    ensures cacheSize > 0 ==> fatal.None? && cache != null && fresh(cache)
    ensures cacheSize > 0 ==> cache != null && cache.Valid() && cache.State() == Empty()
    ensures cacheSize > 0 ==> cache != null && cache.size == cacheSize && cache.disk == disk
  {
    if cacheSize <= 0 {
      cache := null;
      fatal := Some(SetupFailure(Lit("must provide a positive size")));
    } else {
      cache := new Cache(cacheSize, disk);
      fatal := None;
    }
  }

  /** With the default flag value the cache is built and holds at most five entries. */
  method SetupDefault(disk: Disk) returns (cache: Cache?)
    ensures cache != null && cache.Valid() && cache.size == 5 && cache.State() == Empty()
  {
    var fatal;
    cache, fatal := SetupCache(DefaultCacheSize, disk);
  }
}
