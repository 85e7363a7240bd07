/**
 * pkg/services/processor: the request handler of the route
 * `GET /:cropFormat/:width/:height/` followed by the catch-all `url`
 * parameter, and `Processor.process`, which serves a cropped image from the
 * disk-backed LRU cache or fetches, crops and stores it.
 *
 * The fetcher and the cropper are gateways this model does not look inside: the
 * fetch outcome of a call is part of its `World`, and the cropper is a function
 * from the fetched bytes and the request to cropped bytes or an error.
 */
module Processor {
  import opened Wrappers
  import opened GoText
  import opened Errors
  import opened Strconv
  import opened Utils
  import opened FileSystem
  import opened Lru
  import opened Startup

  /** cropper.Transformer.Crop(img, width, height, cropFormat). */
  type Transformer = (Str, Int64, Int64, Uint8) -> Result<Str, Error>

  /**
   * What the outside world answers during one call: the hasher's write error (if
   * any), the fetcher's result, and the I/O errors of the read, the write and an
   * eviction's removal (each only matters if that step runs).
   */
  datatype World = World(
    hashWrite: Option<Error>,
    fetched: Result<Str, Error>,
    readFault: Option<Error>,
    writeFault: Option<Error>,
    removeFault: Option<Error>)

  /**
   * How a call of `process` ends: with image bytes, with an error, with a panic
   * (the type assertion on a cached value that is not a string), or with the
   * process exiting from the eviction hook's Fatalf.
   */
  datatype Outcome = Served(image: Str) | Failed(err: Error) | Panicked | Exited(err: Error)

  /** The state `process` works on: the LRU cache and the files on disk. */
  datatype Snapshot = Snapshot(lru: LruState, files: Files)

  // ----------------------------------------------------------------- cache keys

  /** fmt.Sprintf("%s|%d|%d|%d", url, width, height, cropFormat). */
  function KeyText(url: Str, width: int, height: int, cropFormat: Uint8): (r: Str)
    ensures |r| >= |url| + 6 && r[..|url|] == url && r[|url|] == Bar
    ensures forall i | |url| < i < |r| :: IsDigit(r[i]) || r[i] == Minus || r[i] == Bar
  {
    url + [Bar] + Itoa(width) + [Bar] + Itoa(height) + [Bar] + Itoa(cropFormat)
  }

  /** path.Join(cacheDir, key + ".jpeg") for a clean cacheDir. */
  function CachePath(dir: Str, key: Str): (r: Str)
    ensures |r| == |dir| + 1 + |key| + 5
    ensures r[..|dir|] == dir && r[|dir|] == Slash && r[|dir| + 1..|dir| + 1 + |key|] == key
    ensures r[|dir| + 1 + |key|..] == Lit(".jpeg")
  {
    dir + [Slash] + key + Lit(".jpeg")
  }

  lemma ItoaHasNoBar(n: int)
    ensures Bar !in Itoa(n)
  {
    var t := Itoa(n);
    assert forall i | 0 <= i < |t| :: t[i] != Bar;
  }

  /** Text ending in '|' then a field without '|' splits uniquely at that last '|'. */
  lemma SplitLast(a: Str, x: Str, b: Str, y: Str)
    requires a + [Bar] + x == b + [Bar] + y
    requires Bar !in x && Bar !in y
    ensures a == b && x == y
  {
    var s := a + [Bar] + x;
    var t := b + [Bar] + y;
    assert s[|a|] == Bar;
    assert t[|b|] == Bar;
    assert |x| <= |y| by {
      if |y| < |x| {
        assert false;
      }
    }
    assert |y| <= |x| by {
      if |x| < |y| {
        assert false;
      }
    }
    assert a == s[..|a|] == t[..|b|] == b;
    assert x == s[|a| + 1..] == t[|b| + 1..] == y;
  }

  /**
   * The key text determines the request: distinct (url, width, height, mode)
   * tuples give distinct texts, because only the url, which comes first, can
   * hold '|'.
   */
  lemma KeyTextInjective(u1: Str, w1: int, h1: int, c1: Uint8, u2: Str, w2: int, h2: int, c2: Uint8)
    requires KeyText(u1, w1, h1, c1) == KeyText(u2, w2, h2, c2)
    ensures u1 == u2 && w1 == w2 && h1 == h2 && c1 == c2
  {
    ItoaHasNoBar(w1); ItoaHasNoBar(w2);
    ItoaHasNoBar(h1); ItoaHasNoBar(h2);
    ItoaHasNoBar(c1); ItoaHasNoBar(c2);
    SplitLast(u1 + [Bar] + Itoa(w1) + [Bar] + Itoa(h1), Itoa(c1), u2 + [Bar] + Itoa(w2) + [Bar] + Itoa(h2), Itoa(c2));
    SplitLast(u1 + [Bar] + Itoa(w1), Itoa(h1), u2 + [Bar] + Itoa(w2), Itoa(h2));
    SplitLast(u1, Itoa(w1), u2, Itoa(w2));
    ItoaInjective(w1, w2);
    ItoaInjective(h1, h2);
    ItoaInjective(c1, c2);
  }

  /** Distinct keys are stored at distinct paths. */
  lemma CachePathInjective(dir: Str, k1: Str, k2: Str)
    requires CachePath(dir, k1) == CachePath(dir, k2)
    ensures k1 == k2
  {
    var p := CachePath(dir, k1);
    assert k1 == p[|dir| + 1..|dir| + 1 + |k1|];
    assert k2 == CachePath(dir, k2)[|dir| + 1..|dir| + 1 + |k2|];
  }

  // ------------------------------------------------------------ process, as values

  /**
   * The invariant the cache and the disk keep together: every live key is a
   * 16-digit hex key whose value is the path cacheDir/<key>.jpeg, and that file
   * exists.
   */
  ghost predicate Consistent(dir: Str, s: Snapshot) {
    forall k | k in s.lru.items ::
      IsKey(k) && s.lru.items[k] == Path(CachePath(dir, k)) && CachePath(dir, k) in s.files
  }

  /** A hit: `ioutil.ReadFile(imgPath.(string))`, its error returned as it is. */
  function ReadCached(files: Files, value: Value, readFault: Option<Error>): (r: Outcome)
    ensures r == Panicked <==> value.NonString?
    ensures value.Path? ==> (r.Served? <==> value.path in files && readFault.None?)
  {
    if value.NonString? then Panicked
    else
      match ReadResult(files, value.path, readFault)
      case Ok(img) => Served(img)
      case Err(e) => Failed(e)
  }

  /**
   * The store step of a miss: write the cropped bytes to cacheDir/<key>.jpeg,
   * then Add the path under key, which may run the eviction hook.
   */
  function Store(dir: Str, size: int, s: Snapshot, key: Key, img: Str, world: World): (r: (Outcome, Snapshot))
    requires Lru.Valid(s.lru, size)
    ensures r.0 != Panicked
    ensures r.0.Failed? <==> world.writeFault.Some?
    ensures r.0.Failed? ==> r.1 == s
  {
    var path := CachePath(dir, key);
    var (written, err) := WriteResult(s.files, path, img, world.writeFault);
    if err.Some? then (Failed(Wrapped(Lit("failed to save image"), err.value)), s)
    else
      var (lru, evicted) := Insert(s.lru, size, key, Path(path));
      if evicted.None? then (Served(img), Snapshot(lru, written))
      else
        var (files, fatal) := Evict(written, evicted.value.value, world.removeFault);
        (if fatal.Some? then Exited(fatal.value) else Served(img), Snapshot(lru, files))
  }

  /** A miss: fetch, crop, then store. */
  function Miss(dir: Str, cropper: Transformer, size: int, s: Snapshot, key: Key,
                width: Int64, height: Int64, cropFormat: Uint8, world: World): (r: (Outcome, Snapshot))
    requires Lru.Valid(s.lru, size)
    ensures r.0 != Panicked
    ensures r.0.Failed? ==> r.1 == s
  {
    match world.fetched
    case Err(e) => (Failed(Wrapped(Lit("failed to fetch image"), e)), s)
    case Ok(raw) =>
      match cropper(raw, width, height, cropFormat)
      case Err(e) => (Failed(Wrapped(Lit("failed to crop image"), e)), s)
      case Ok(img) => Store(dir, size, s, key, img, world)
  }

  /** Processor.process on a snapshot: the outcome and the new snapshot. */
  function ProcessSpec(dir: Str, cropper: Transformer, size: int, s: Snapshot,
                       url: Str, width: Int64, height: Int64, cropFormat: Uint8, world: World): (r: (Outcome, Snapshot))
    requires Lru.Valid(s.lru, size)
    ensures world.hashWrite.Some? ==> r.0.Failed? && r.1 == s
    ensures r.0.Failed? ==> r.1.lru.items == s.lru.items && r.1.files == s.files
  {
    match GetHash(KeyText(url, width, height, cropFormat), world.hashWrite)
    case Err(e) => (Failed(Wrapped(Lit("failed to get cacheKey hash"), e)), s)
    case Ok(key) =>
      var (found, lru) := Lookup(s.lru, key);
      if found.Some? then (ReadCached(s.files, found.value, world.readFault), Snapshot(lru, s.files))
      else Miss(dir, cropper, size, s, key, width, height, cropFormat, world)
  }

  // ------------------------------------------------------------ process, lemmas

  /**
   * A successful write followed by Add: the request is served unless the
   * eviction hook's removal fails, which ends the process. Key becomes the most
   * recently used entry, mapped to its file, which holds the cropped bytes. When
   * the cache was full, the least recently used entry is evicted and, unless the
   * process ended, its file is gone. No other entry and no other file changes,
   * and the invariant is kept.
   */
  lemma StoreMeaning(dir: Str, size: int, s: Snapshot, key: Key, img: Str, world: World)
    requires Lru.Valid(s.lru, size) && Consistent(dir, s)
    requires IsKey(key) && key !in s.lru.items && world.writeFault.None?
    ensures var (outcome, t) := Store(dir, size, s, key, img, world);
      var path := CachePath(dir, key);
      && Lru.Valid(t.lru, size) && Consistent(dir, t)
      && (outcome == Served(img) || outcome.Exited?)
      && (outcome.Exited? <==> |s.lru.order| == size && world.removeFault.Some?)
      && (outcome.Exited? ==> outcome.err == Wrapped(Lit("failed to remove item from cache"), world.removeFault.value))
      && path in t.files && t.files[path] == img
      && key in t.lru.items && t.lru.items[key] == Path(path)
      && |t.lru.order| > 0 && t.lru.order[|t.lru.order| - 1] == key
      && (|s.lru.order| < size ==>
            && t.lru == LruState(s.lru.order + [key], s.lru.items[key := Path(path)])
            && t.files == s.files[path := img])
      && (|s.lru.order| == size ==>
            var victim := s.lru.order[0];
            && victim in s.lru.items && victim != key
            && t.lru == LruState(s.lru.order[1..] + [key], (s.lru.items - {victim})[key := Path(path)])
            && t.files == if outcome.Exited? then s.files[path := img]
                          else s.files[path := img] - {CachePath(dir, victim)})
  {
    var path := CachePath(dir, key);
    var written := s.files[path := img];
    var (lru, evicted) := Insert(s.lru, size, key, Path(path));
    InsertMeaning(s.lru, size, key, Path(path));
    assert lru.items == (if evicted.None? then s.lru.items else s.lru.items - {evicted.value.key})[key := Path(path)];
    if evicted.Some? {
      var victim := evicted.value.key;
      assert victim in s.lru.items;
      var vpath := CachePath(dir, victim);
      assert evicted.value.value == Path(vpath) && vpath in written;
      if vpath == path {
        CachePathInjective(dir, victim, key);
      }
    }
    StoreKeepsConsistent(dir, size, s, key, img, world.removeFault);
  }

  /** The eviction after a successful write keeps the invariant. */
  lemma StoreKeepsConsistent(dir: Str, size: int, s: Snapshot, key: Key, img: Str, removeFault: Option<Error>)
    requires Lru.Valid(s.lru, size) && Consistent(dir, s)
    requires IsKey(key) && key !in s.lru.items
    ensures var path := CachePath(dir, key);
      var written := s.files[path := img];
      var (lru, evicted) := Insert(s.lru, size, key, Path(path));
      var files := if evicted.None? then written else Evict(written, evicted.value.value, removeFault).0;
      Lru.Valid(lru, size) && Consistent(dir, Snapshot(lru, files)) && files[path] == img
  {
    var path := CachePath(dir, key);
    var written := s.files[path := img];
    var (lru, evicted) := Insert(s.lru, size, key, Path(path));
    InsertMeaning(s.lru, size, key, Path(path));
    var files := if evicted.None? then written else Evict(written, evicted.value.value, removeFault).0;
    if evicted.Some? {
      var victim := evicted.value.key;
      assert victim in s.lru.items && victim != key;
      assert evicted.value.value == Path(CachePath(dir, victim));
      forall k | k in lru.items
        ensures CachePath(dir, k) in files && files[CachePath(dir, k)] == written[CachePath(dir, k)]
      {
        if CachePath(dir, k) == CachePath(dir, victim) {
          CachePathInjective(dir, k, victim);
        }
        EvictTouchesOnlyItsFile(written, evicted.value.value, removeFault, CachePath(dir, k));
      }
    }
  }

  /**
   * Every outcome of process keeps the invariant, and under it the cached-value
   * type assertion never panics.
   */
  lemma ProcessKeepsConsistent(dir: Str, cropper: Transformer, size: int, s: Snapshot,
                               url: Str, width: Int64, height: Int64, cropFormat: Uint8, world: World)
    requires Lru.Valid(s.lru, size) && Consistent(dir, s)
    ensures var (outcome, t) := ProcessSpec(dir, cropper, size, s, url, width, height, cropFormat, world);
      Lru.Valid(t.lru, size) && Consistent(dir, t) && outcome != Panicked
  {
    var h := GetHash(KeyText(url, width, height, cropFormat), world.hashWrite);
    if h.Ok? {
      var key := h.value;
      LookupMeaning(s.lru, size, key);
      if key in s.lru.items {
        HitDispatch(dir, cropper, size, s, url, width, height, cropFormat, world);
        assert s.lru.items[key].Path?;
      } else {
        MissDispatch(dir, cropper, size, s, url, width, height, cropFormat, world);
        if world.fetched.Ok? {
          var c := cropper(world.fetched.value, width, height, cropFormat);
          if c.Ok? && world.writeFault.None? {
            StoreMeaning(dir, size, s, key, c.value, world);
          }
        }
      }
    }
  }

  /** A failing hasher ends the call before the cache or the disk is touched. */
  lemma HashFailureTouchesNothing(dir: Str, cropper: Transformer, size: int, s: Snapshot,
                                  url: Str, width: Int64, height: Int64, cropFormat: Uint8, world: World)
    requires Lru.Valid(s.lru, size) && world.hashWrite.Some?
    ensures ProcessSpec(dir, cropper, size, s, url, width, height, cropFormat, world)
      == (Failed(Wrapped(Lit("failed to get cacheKey hash"), world.hashWrite.value)), s)
  {
  }

  /**
   * A hit serves exactly the stored file's bytes (or the read error, unwrapped),
   * keeps every entry and file, makes the key the most recently used, and
   * consults neither the fetcher, the cropper nor the write and remove paths.
   */
  lemma HitServesStoredFile(dir: Str, cropper: Transformer, cropper2: Transformer, size: int, s: Snapshot,
                            url: Str, width: Int64, height: Int64, cropFormat: Uint8, world: World, world2: World)
    requires Lru.Valid(s.lru, size) && Consistent(dir, s)
    requires world.hashWrite.None? && KeyOf(KeyText(url, width, height, cropFormat)) in s.lru.items
    requires world2.hashWrite == world.hashWrite && world2.readFault == world.readFault
    ensures var key := KeyOf(KeyText(url, width, height, cropFormat));
      var (outcome, t) := ProcessSpec(dir, cropper, size, s, url, width, height, cropFormat, world);
      && outcome == (if world.readFault.None? then Served(s.files[CachePath(dir, key)]) else Failed(world.readFault.value))
      && t.files == s.files && t.lru.items == s.lru.items
      && t.lru.order[|t.lru.order| - 1] == key
      && ProcessSpec(dir, cropper2, size, s, url, width, height, cropFormat, world2) == (outcome, t)
  {
    var key := KeyOf(KeyText(url, width, height, cropFormat));
    LookupMeaning(s.lru, size, key);
    HitDispatch(dir, cropper, size, s, url, width, height, cropFormat, world);
    HitDispatch(dir, cropper2, size, s, url, width, height, cropFormat, world2);
    assert s.lru.items[key] == Path(CachePath(dir, key));
  }

  /** With the hasher working, a key the cache holds takes the hit path. */
  lemma HitDispatch(dir: Str, cropper: Transformer, size: int, s: Snapshot,
                    url: Str, width: Int64, height: Int64, cropFormat: Uint8, world: World)
    requires Lru.Valid(s.lru, size)
    requires world.hashWrite.None? && KeyOf(KeyText(url, width, height, cropFormat)) in s.lru.items
    ensures var key := KeyOf(KeyText(url, width, height, cropFormat));
      ProcessSpec(dir, cropper, size, s, url, width, height, cropFormat, world)
        == (ReadCached(s.files, s.lru.items[key], world.readFault), Snapshot(Lookup(s.lru, key).1, s.files))
  {
  }

  /** With the hasher working, a key the cache does not hold takes the miss path. */
  lemma MissDispatch(dir: Str, cropper: Transformer, size: int, s: Snapshot,
                     url: Str, width: Int64, height: Int64, cropFormat: Uint8, world: World)
    requires Lru.Valid(s.lru, size)
    requires world.hashWrite.None? && KeyOf(KeyText(url, width, height, cropFormat)) !in s.lru.items
    ensures ProcessSpec(dir, cropper, size, s, url, width, height, cropFormat, world)
      == Miss(dir, cropper, size, s, KeyOf(KeyText(url, width, height, cropFormat)), width, height, cropFormat, world)
  {
  }

  /**
   * On a miss every failure before the Add leaves the cache and the disk as they
   * were: a fetch error (wrapped, and the cropper is never asked), a crop error
   * or a write error (each wrapped).
   */
  lemma MissFailuresTouchNothing(dir: Str, cropper: Transformer, cropper2: Transformer, size: int, s: Snapshot,
                                 url: Str, width: Int64, height: Int64, cropFormat: Uint8, world: World)
    requires Lru.Valid(s.lru, size)
    requires world.hashWrite.None? && KeyOf(KeyText(url, width, height, cropFormat)) !in s.lru.items
    ensures world.fetched.Err? ==>
      ProcessSpec(dir, cropper, size, s, url, width, height, cropFormat, world)
        == ProcessSpec(dir, cropper2, size, s, url, width, height, cropFormat, world)
        == (Failed(Wrapped(Lit("failed to fetch image"), world.fetched.error)), s)
    ensures world.fetched.Ok? && cropper(world.fetched.value, width, height, cropFormat).Err? ==>
      ProcessSpec(dir, cropper, size, s, url, width, height, cropFormat, world)
        == (Failed(Wrapped(Lit("failed to crop image"), cropper(world.fetched.value, width, height, cropFormat).error)), s)
    ensures world.fetched.Ok? && cropper(world.fetched.value, width, height, cropFormat).Ok? && world.writeFault.Some? ==>
      ProcessSpec(dir, cropper, size, s, url, width, height, cropFormat, world)
        == (Failed(Wrapped(Lit("failed to save image"), world.writeFault.value)), s)
  {
    MissDispatch(dir, cropper, size, s, url, width, height, cropFormat, world);
    MissDispatch(dir, cropper2, size, s, url, width, height, cropFormat, world);
  }

  /**
   * A miss whose fetch, crop and write succeed is the store step on the key:
   * it serves the cropped bytes (unless the eviction hook ends the process),
   * stores them at cacheDir/<key>.jpeg and maps key to that path as the most
   * recently used entry. A full cache loses its least recently used entry and,
   * unless the process ended, that entry's file (StoreMeaning gives the whole
   * new state: no other entry and no other file changes).
   */
  lemma MissStoresResult(dir: Str, cropper: Transformer, size: int, s: Snapshot,
                         url: Str, width: Int64, height: Int64, cropFormat: Uint8, world: World, key: Key, img: Str)
    requires Lru.Valid(s.lru, size) && Consistent(dir, s)
    requires world.hashWrite.None? && key == KeyOf(KeyText(url, width, height, cropFormat)) && key !in s.lru.items
    requires world.fetched.Ok? && cropper(world.fetched.value, width, height, cropFormat) == Ok(img)
    requires world.writeFault.None?
    ensures var (outcome, t) := ProcessSpec(dir, cropper, size, s, url, width, height, cropFormat, world);
      && (outcome, t) == Store(dir, size, s, key, img, world)
      && (outcome == Served(img) || outcome.Exited?)
      && (outcome.Exited? <==> |s.lru.order| == size && world.removeFault.Some?)
      && CachePath(dir, key) in t.files && t.files[CachePath(dir, key)] == img
      && key in t.lru.items && t.lru.items[key] == Path(CachePath(dir, key))
      && t.lru.order[|t.lru.order| - 1] == key
      && (|s.lru.order| == size ==>
            s.lru.order[0] !in t.lru.items && (outcome.Served? ==> CachePath(dir, s.lru.order[0]) !in t.files))
  {
    MissDispatch(dir, cropper, size, s, url, width, height, cropFormat, world);
    StoreMeaning(dir, size, s, key, img, world);
  }

  /**
   * Once a request has been served, repeating it is a hit: it returns the same
   * bytes and changes no entry and no file, whatever the fetcher would answer.
   */
  lemma {:induction false} RepeatedRequestIsHit(dir: Str, cropper: Transformer, size: int, s: Snapshot,
                                                url: Str, width: Int64, height: Int64, cropFormat: Uint8,
                                                world: World, world2: World)
    requires Lru.Valid(s.lru, size) && Consistent(dir, s)
    requires ProcessSpec(dir, cropper, size, s, url, width, height, cropFormat, world).0.Served?
    requires world2.hashWrite.None? && world2.readFault.None?
    ensures var (outcome, t) := ProcessSpec(dir, cropper, size, s, url, width, height, cropFormat, world);
      Lru.Valid(t.lru, size)
      && var (again, u) := ProcessSpec(dir, cropper, size, t, url, width, height, cropFormat, world2);
      again == outcome && u.files == t.files && u.lru.items == t.lru.items
  {
    var key := KeyOf(KeyText(url, width, height, cropFormat));
    var (outcome, t) := ProcessSpec(dir, cropper, size, s, url, width, height, cropFormat, world);
    ProcessKeepsConsistent(dir, cropper, size, s, url, width, height, cropFormat, world);
    assert world.hashWrite.None?;
    if key in s.lru.items {
      HitServesStoredFile(dir, cropper, cropper, size, s, url, width, height, cropFormat, world, world);
      assert world.readFault.None?;
      assert t.lru.items == s.lru.items && t.files == s.files;
    } else {
      MissStoresResult(dir, cropper, size, s, url, width, height, cropFormat, world,
                       key, cropper(world.fetched.value, width, height, cropFormat).value);
    }
    assert key in t.lru.items;
    HitServesStoredFile(dir, cropper, cropper, size, t, url, width, height, cropFormat, world2, world2);
  }

  // --------------------------------------------------------------- the handler

  /** The request `process` is called with once the route parameters are accepted. */
  datatype Request = Request(url: Str, width: Int64, height: Int64, cropFormat: Uint8)

  /**
   * Where the route checks end: a request for `process`, a rejection carrying
   * the text of the 400 answer, or the panic of slicing an empty url parameter
   * (the router's catch-all parameter always starts with '/', so this needs a
   * caller other than the router).
   */
  datatype Route = Accepted(request: Request) | Rejected(message: Str) | SlicePanic

  /**
   * The route-parameter checks of ProcessorHandler, in their order: the url is
   * rebuilt first, then the mode, the width and the height are checked.
   */
  function ParseRoute(cropFormat: Str, rawWidth: Str, rawHeight: Str, urlParam: Str): (r: Route)
    ensures r.SlicePanic? <==> urlParam == []
    ensures r.Accepted? ==> cropFormat == Lit("fill") || cropFormat == Lit("resize")
    ensures r.Accepted? ==> Lit("http://") <= r.request.url
  {
    if urlParam == [] then SlicePanic
    else
      var url := Lit("http://") + urlParam[1..];
      if cropFormat != Lit("fill") && cropFormat != Lit("resize") then
        Rejected(Lit("wrong type of crop image: ") + cropFormat)
      else
        var crop := if cropFormat == Lit("fill") then Fill else Resize;
        match Atoi(rawWidth)
        case Err(e) => Rejected(NumErrorMessage(e))
        case Ok(width) =>
          match Atoi(rawHeight)
          case Err(e) => Rejected(NumErrorMessage(e))
          case Ok(height) => Accepted(Request(url, width, height, crop))
  }

  /** The text of an Atoi failure on s, as the 400 answer carries it. */
  function AtoiFailure(s: Str): Str {
    NumErrorMessage(NumError(s, if RangeError(s) then OutOfRange else InvalidSyntax))
  }

  /**
   * An Atoi error message names the whole input and the reason: "value out of
   * range" when the leading digits overflow or well-formed text leaves the
   * 64-bit range, "invalid syntax" otherwise.
   */
  lemma AtoiErrorText(s: Str)
    requires Atoi(s).Err?
    ensures NumErrorMessage(Atoi(s).error) == AtoiFailure(s)
  {
    AtoiMeaning(s);
  }

  /**
   * What the route checks accept and reject: only "fill" and "resize" are modes,
   * and a bad mode is reported before the dimensions are looked at; then the
   * width, then the height must be decimal text (signs allowed, zero and
   * negatives included) that fits a 64-bit int. An accepted request carries
   * "http://" plus the parameter without its leading '/'.
   */
  lemma ParseRouteMeaning(cropFormat: Str, rawWidth: Str, rawHeight: Str, urlParam: Str)
    ensures |urlParam| == 0 <==> ParseRoute(cropFormat, rawWidth, rawHeight, urlParam) == SlicePanic
    ensures |urlParam| > 0 ==> var r := ParseRoute(cropFormat, rawWidth, rawHeight, urlParam);
      var modeOk := cropFormat == Lit("fill") || cropFormat == Lit("resize");
      var widthOk := WellFormed(rawWidth) && MinInt64 <= SignedValue(rawWidth) <= MaxInt64;
      var heightOk := WellFormed(rawHeight) && MinInt64 <= SignedValue(rawHeight) <= MaxInt64;
      && (r.Accepted? <==> modeOk && widthOk && heightOk)
      && (r.Accepted? ==> r.request == Request(Lit("http://") + urlParam[1..], SignedValue(rawWidth), SignedValue(rawHeight),
                                       if cropFormat == Lit("fill") then Fill else Resize))
      && (!modeOk ==> r == Rejected(Lit("wrong type of crop image: ") + cropFormat))
      && (modeOk && !widthOk ==> r == Rejected(AtoiFailure(rawWidth)))
      && (modeOk && widthOk && !heightOk ==> r == Rejected(AtoiFailure(rawHeight)))
  {
    AtoiMeaning(rawWidth);
    AtoiMeaning(rawHeight);
    if Atoi(rawWidth).Err? {
      AtoiErrorText(rawWidth);
    }
    if Atoi(rawHeight).Err? {
      AtoiErrorText(rawHeight);
    }
  }

  /** An unknown mode is refused before the dimensions are looked at. */
  lemma UnknownModeExample()
    ensures ParseRoute(Lit("stretch"), Lit("100"), Lit("x"), Lit("/nginx/a.jpg"))
      == Rejected(Lit("wrong type of crop image: stretch"))
  {
    assert Lit("stretch")[0] != Lit("fill")[0] && Lit("stretch")[0] != Lit("resize")[0];
  }

  /** Zero and signed dimensions pass the route checks. */
  lemma SignedDimensionsExample()
    ensures ParseRoute(Lit("fill"), Lit("-5"), Lit("+0"), Lit("/nginx/a.jpg"))
      == Accepted(Request(Lit("http://nginx/a.jpg"), -5, 0, Fill))
  {
    assert Lit("-5") == [Minus, 0x35];
    assert Lit("+0") == [Plus, 0x30];
    assert Atoi(Lit("-5")) == Ok(-5);
    assert Atoi(Lit("+0")) == Ok(0);
    assert Lit("/nginx/a.jpg")[1..] == Lit("nginx/a.jpg");
    assert Lit("http://") + Lit("nginx/a.jpg") == Lit("http://nginx/a.jpg");
  }

  /** What the client receives, or what ends the process instead. */
  datatype Reply =
    | Response(status: int, headers: map<Str, Str>, body: Str)
    | NoResponse         // the handler panicked; the server drops the connection
    | ProcessExit(log: Str)  // Fatalf logged this line and exited

  /** http.Error: a plain-text answer of the message and a newline. */
  function ErrorReply(status: int, message: Str): Reply {
    Response(status,
             map[Lit("Content-Type") := Lit("text/plain; charset=utf-8"), Lit("X-Content-Type-Options") := Lit("nosniff")],
             message + [Newline])
  }

  /** The answer ProcessorHandler writes for an outcome of process. */
  function Respond(outcome: Outcome): (r: Reply)
    ensures r.Response? <==> outcome.Served? || outcome.Failed?
    ensures r.Response? ==> r.status == if outcome.Served? then 200 else 502
    ensures r.ProcessExit? <==> outcome.Exited?
  {
    match outcome
    case Served(img) =>
      Response(200, map[Lit("Content-Type") := Lit("image/jpeg"), Lit("Content-Length") := Itoa(|img|)], img)
    case Failed(e) => ErrorReply(502, Message(e))
    case Panicked => NoResponse
    case Exited(e) => ProcessExit(Message(e))
  }

  /**
   * A served image goes out as image/jpeg with its exact bytes and a
   * Content-Length that parses back to their count; a failure is a 502 whose
   * body is the error text and a newline.
   */
  lemma RespondMeaning(outcome: Outcome)
    requires outcome.Served? ==> |outcome.image| <= MaxInt64
    ensures outcome.Served? ==> var r := Respond(outcome);
      && r.status == 200 && r.body == outcome.image
      && r.headers[Lit("Content-Type")] == Lit("image/jpeg")
      && Atoi(r.headers[Lit("Content-Length")]) == Ok(|outcome.image|)
    ensures outcome.Failed? ==> var r := Respond(outcome);
      && r.status == 502 && r.body == Message(outcome.err) + [Newline]
  {
    if outcome.Served? {
      ItoaRoundTrip(|outcome.image|);
      assert Lit("Content-Type") != Lit("Content-Length") by {
        assert |Lit("Content-Type")| != |Lit("Content-Length")|;
      }
    }
  }

  /** A crop failure reaches the client as 502 "failed to crop image: <cause>\n". */
  lemma CropFailureReply(cause: Error)
    ensures Respond(Failed(Wrapped(Lit("failed to crop image"), cause))).status == 502
    ensures Respond(Failed(Wrapped(Lit("failed to crop image"), cause))).body
      == Lit("failed to crop image: ") + Message(cause) + [Newline]
  {
    assert Lit("failed to crop image") + Lit(": ") == Lit("failed to crop image: ");
  }

  /** One request through ProcessorHandler, on values: the answer and the new snapshot. */
  function HandleSpec(dir: Str, cropper: Transformer, size: int, s: Snapshot,
                      cropFormat: Str, rawWidth: Str, rawHeight: Str, urlParam: Str, world: World): (r: (Reply, Snapshot))
    requires Lru.Valid(s.lru, size)
    ensures r.0.Response? && r.0.status == 400 ==> r.1 == s
    ensures r.0.Response? && r.0.status != 200 ==> r.1.lru.items == s.lru.items && r.1.files == s.files
    ensures r.0 == NoResponse && urlParam != [] ==> r.1.files == s.files
  {
    match ParseRoute(cropFormat, rawWidth, rawHeight, urlParam)
    case SlicePanic => (NoResponse, s)
    case Rejected(message) => (ErrorReply(400, message), s)
    case Accepted(req) =>
      var (outcome, t) := ProcessSpec(dir, cropper, size, s, req.url, req.width, req.height, req.cropFormat, world);
      (Respond(outcome), t)
  }

  /** A request the route checks refuse is answered 400 and changes no entry and no file. */
  lemma RejectedRequestTouchesNothing(dir: Str, cropper: Transformer, size: int, s: Snapshot,
                                      cropFormat: Str, rawWidth: Str, rawHeight: Str, urlParam: Str, world: World)
    requires Lru.Valid(s.lru, size)
    requires ParseRoute(cropFormat, rawWidth, rawHeight, urlParam).Rejected?
    ensures var (reply, t) := HandleSpec(dir, cropper, size, s, cropFormat, rawWidth, rawHeight, urlParam, world);
      t == s && reply.Response? && reply.status == 400
      && reply.body == ParseRoute(cropFormat, rawWidth, rawHeight, urlParam).message + [Newline]
  {
  }

  // ------------------------------------------------------------ the processor

  /** Processor: the cache directory, the cropper and the shared cache and disk. */
  class Processor {
    const cacheDir: Str
    const cropper: Transformer
    const cache: Cache
    const disk: Disk

    function Current(): Snapshot
      reads cache, disk
    {
      Snapshot(cache.State(), disk.files)
    }

    ghost predicate Valid()
      reads cache, disk
    {
      cache.disk == disk && cache.Valid() && Consistent(cacheDir, Current())
    }

    /** NewProcessor, given a cache whose entries already satisfy the invariant. */
    constructor(cacheDir: Str, cropper: Transformer, cache: Cache)
      requires cache.Valid() && Consistent(cacheDir, Snapshot(cache.State(), cache.disk.files))
      ensures Valid()
      ensures this.cacheDir == cacheDir && this.cropper == cropper && this.cache == cache && this.disk == cache.disk
    {
      this.cacheDir := cacheDir;
      this.cropper := cropper;
      this.cache := cache;
      this.disk := cache.disk;
    }

    /** process: serve from the cache, or fetch, crop, store and cache. */
    method Process(url: Str, width: Int64, height: Int64, cropFormat: Uint8, world: World) returns (outcome: Outcome)
      requires Valid()
      modifies cache, disk
      ensures Valid()
      ensures (outcome, Current())
        == ProcessSpec(cacheDir, cropper, cache.size, old(Current()), url, width, height, cropFormat, world)
    {
      ghost var s0 := Current();
      ProcessKeepsConsistent(cacheDir, cropper, cache.size, s0, url, width, height, cropFormat, world);
      var hashed := GetHash(KeyText(url, width, height, cropFormat), world.hashWrite);
      if hashed.Err? {
        return Failed(Wrapped(Lit("failed to get cacheKey hash"), hashed.error));
      }
      var key := hashed.value;
      LookupMeaning(s0.lru, cache.size, key);
      var found := cache.Get(key);
      if found.Some? {
        HitDispatch(cacheDir, cropper, cache.size, s0, url, width, height, cropFormat, world);
        var img := disk.ReadFile(found.value.path, world.readFault);
        return if img.Ok? then Served(img.value) else Failed(img.error);
      }
      MissDispatch(cacheDir, cropper, cache.size, s0, url, width, height, cropFormat, world);
      assert Current() == s0;
      match world.fetched {
        case Err(e) =>
          return Failed(Wrapped(Lit("failed to fetch image"), e));
        case Ok(raw) =>
          match cropper(raw, width, height, cropFormat) {
            case Err(e) =>
              return Failed(Wrapped(Lit("failed to crop image"), e));
            case Ok(img) =>
              outcome := StoreImage(key, img, world);
          }
      }
    }

    /** The store step of process: write the cropped bytes, then Add their path under key. */
    method StoreImage(key: Key, img: Str, world: World) returns (outcome: Outcome)
      requires cache.disk == disk && cache.Valid()
      modifies cache, disk
      ensures cache.Valid()
      ensures (outcome, Current()) == Store(cacheDir, cache.size, old(Current()), key, img, world)
    {
      var imgPath := CachePath(cacheDir, key);
      var err := disk.WriteFile(imgPath, img, world.writeFault);
      if err.Some? {
        return Failed(Wrapped(Lit("failed to save image"), err.value));
      }
      var fatal := cache.Add(key, Path(imgPath), world.removeFault);
      outcome := if fatal.Some? then Exited(fatal.value) else Served(img);
    }

    /** ProcessorHandler's route function for one request. */
    method Serve(cropFormat: Str, rawWidth: Str, rawHeight: Str, urlParam: Str, world: World) returns (reply: Reply)
      requires Valid()
      modifies cache, disk
      ensures Valid()
      ensures (reply, Current())
        == HandleSpec(cacheDir, cropper, cache.size, old(Current()), cropFormat, rawWidth, rawHeight, urlParam, world)
    {
      if urlParam == [] {
        return NoResponse;
      }
      var route := ParseRoute(cropFormat, rawWidth, rawHeight, urlParam);
      if route.Rejected? {
        return ErrorReply(400, route.message);
      }
      var req := route.request;
      var outcome := Process(req.url, req.width, req.height, req.cropFormat, world);
      reply := Respond(outcome);
    }
  }
}
