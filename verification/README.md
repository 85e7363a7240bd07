# ImagePreviewer request-to-cache pipeline, in Dafny

ImagePreviewer is an HTTP service that answers
`GET /<fill|resize>/<width>/<height>/<host/path of a JPEG>` with the remote
image cropped or resized to the requested size. Cropped images are kept on disk
in a directory of `<key>.jpeg` files, indexed by an LRU cache of fixed capacity;
when the cache evicts an entry, a hook deletes the entry's file.

This project models that pipeline and proves what it promises:

- **Key derivation** (`Utils`, `Xxh64`, `Strconv`). The request becomes the text
  `url|width|height|mode` (mode 1 for fill, 3 for resize). `GetHash` hashes that
  text with XXH64, seed 0, implemented in 64-bit vectors, and returns the
  16-digit lower-case hex of the digest. Distinct requests give distinct key
  texts, and the hex step is injective. The repository's own test vector is
  proved: `GetHash("abcdefgh") == "3ad351775b4634b7"`. `Contains` is the
  case-insensitive membership test.
- **Route checks** (`Processor.ParseRoute`). The mode is checked first, then
  the width, then the height, with Go's `strconv.Atoi` modelled exactly:
  optional sign, decimal digits, the 64-bit range, and the error text.
- **The disk-backed LRU cache** (`Lru`, `Startup`, `FileSystem`). golang-lru is
  modelled by its contract. The hook of `cmd/main.go` removes string values'
  files, and a failed removal is fatal. Setting up the cache fails fatally for a
  size that is not positive. The default capacity is 5.
- **`process` and the handler** (`Processor`). The operation is given as a
  function on a snapshot of cache and disk (`ProcessSpec`, `HandleSpec`). It is
  also given as the class `Processor.Processor`, whose methods change the shared
  cache and disk objects step by step and are proved equal to those functions.
  Every outcome keeps the invariant: each live key `k` maps to
  `cacheDir/k.jpeg`, and that file exists.

Strings are Go strings: byte sequences (`GoText.Str`). Errors are
`Failure(text)` or `Wrapped(context, cause)`; `Errors.Message` gives the text
`context: cause`, as `errors.Wrap` does. The outside world of one call is a
`World` value:
- the hasher's write error;
- the fetcher's result;
- the I/O errors of the read, the write and the eviction's removal.

The cropper is a function value.

## Model

| member | source | states |
|---|---|---|
| `Utils.HexEncode` | pkg/utils/utils.go:18 | `hex.EncodeToString`: the text has two lower-case hex digits per byte |
| `Utils.HexRoundTrip` | pkg/utils/utils.go:18 | decoding the hex text gives back the digest bytes |
| `Utils.HexInjective` | pkg/utils/utils.go:18 | distinct digests give distinct hex texts |
| `Utils.HexEncodeAppend` | pkg/utils/utils.go:18 | hex-encoding a concatenation is the concatenation of the encodings |
| `Utils.GetHash` | pkg/utils/utils.go:12-19 | succeeds exactly when the hasher's write succeeds, returning that error otherwise; a key is 16 lower-case hex digits without '/' |
| `Utils.KeyDeterminesDigestBytes` | pkg/utils/utils.go:18 | equal keys come only from equal digest bytes |
| `Utils.KeyDeterminesDigest` | pkg/utils/utils.go:13-18 | two texts with the same key have the same 64-bit XXH64 digest |
| `Utils.GetHashVector` | pkg/utils/utils_test.go:17-19 | the key of "abcdefgh" is "3ad351775b4634b7" (XXH64, seed 0, big-endian bytes, hex) |
| `Utils.HexOfVector` | pkg/utils/utils_test.go:19 | the 8 digest bytes 3a d3 51 77 5b 46 34 b7 encode as "3ad351775b4634b7" |
| `Xxh64.TailStart` | pkg/utils/utils.go:14 | the tail after the 32-byte stripes starts inside the input |
| `Xxh64.TailIsShort` | pkg/utils/utils.go:14 | the stripes consume whole 32-byte blocks and leave fewer than 32 bytes for the tail |
| `Xxh64.Sum64OfAbcdefgh` | pkg/utils/utils.go:13-14 | the XXH64 digest of "abcdefgh" is 0x3ad351775b4634b7 |
| `Xxh64.SumBytes` | pkg/utils/utils.go:18 | `Sum(nil)` yields the 64-bit digest as exactly 8 bytes |
| `Xxh64.SumBytesInjective` | pkg/utils/utils.go:18 | `Sum(nil)` loses nothing: equal byte strings come only from equal digests |
| `Xxh64.SumBytesOfVector` | pkg/utils/utils.go:18 | on the test vector's digest, the bytes come most significant first |
| `Utils.Contains` | pkg/utils/utils.go:22-29 | true exactly when some element equals lookup under case folding |
| `Utils.ContainsEmpty` | pkg/utils/utils.go:23-28 | an empty slice contains nothing |
| `Utils.ContainsVectors` | pkg/utils/utils_test.go:12-13 | ["A","B"] contains "A" and does not contain "C" |
| `Utils.ContainsFoldsCase` | pkg/utils/utils.go:24 | "IMAGE/JPEG" matches "image/jpeg" although the two differ |
| `Strconv.Itoa` | pkg/services/processor/processor.go:87 | `%d` text is non-empty, all digits after an optional leading '-' |
| `Strconv.Atoi` | pkg/services/processor/processor.go:66 | `strconv.Atoi`: an error always names the whole input; empty text or a lone sign is invalid syntax; a negative result needs a leading '-' |
| `Strconv.AtoiMeaning` | pkg/services/processor/processor.go:66-77 | Atoi accepts exactly a sign then digits whose value fits 64 bits and returns that value; it reports the whole input; the reason is "value out of range" exactly when the leading digits overflow 2^64-1 or well-formed text leaves the int64 range |
| `Strconv.ScanDigits` | pkg/services/processor/processor.go:66 | the digit scan is the decimal value, stopped with a range error above 2^64-1 |
| `Strconv.ScanNonDigits` | pkg/services/processor/processor.go:66 | a non-digit byte always ends the scan without a value |
| `Strconv.ScanLeadingDigits` | pkg/services/processor/processor.go:66 | the scan's verdict depends only on the leading digits: a range error if they overflow, else a value if they are the whole text, else a syntax error |
| `Strconv.LeadingDigits` | pkg/services/processor/processor.go:66 | the leading digits are a digit-only prefix that stops at the first non-digit |
| `Strconv.OverflowBeforeSyntax` | pkg/services/processor/processor.go:66-69 | twenty 9s then 'x' is not well formed, yet Atoi fails with "value out of range", since the overflow comes first |
| `Strconv.NumErrorMessage` | pkg/services/processor/processor.go:69 | `err.Error()` holds the input right after `strconv.Atoi: parsing "` and ends in 'x' (invalid syntax) or 'e' (out of range) |
| `Strconv.NumErrorMessageInjective` | pkg/services/processor/processor.go:69 | the 400 text determines both the rejected input and the reason |
| `Strconv.DigitsValue` | pkg/services/processor/processor.go:103 | reading back the decimal digits of n gives n |
| `Strconv.ItoaRoundTrip` | pkg/services/processor/processor.go:87 | formatted 64-bit ints parse back to themselves |
| `Strconv.ItoaInjective` | pkg/services/processor/processor.go:103 | distinct ints format to distinct text |
| `Processor.KeyText` | pkg/services/processor/processor.go:103 | the `Sprintf` key text is the url, then the bar separator, then at least five more bytes, each a digit, a '-' sign or a bar |
| `Processor.KeyTextInjective` | pkg/services/processor/processor.go:103 | the `Sprintf` at line 103 is injective: equal key texts come only from equal url, width, height and mode |
| `Processor.SplitLast` | pkg/services/processor/processor.go:103 | a text splits uniquely at its last bar character when the field after it holds no bar |
| `Processor.ItoaHasNoBar` | pkg/services/processor/processor.go:103 | a `%d` field never contains the bar character |
| `Processor.CachePath` | pkg/services/processor/processor.go:122 | `path.Join(cacheDir, key + ".jpeg")` is the directory, '/', the key, then ".jpeg" |
| `Processor.CachePathInjective` | pkg/services/processor/processor.go:122 | two keys with the same `imgPath` are the same key |
| `Processor.ParseRoute` | pkg/services/processor/processor.go:46-77 | line 47's `url[1:]` panics exactly on an empty parameter; an accepted route has mode "fill" or "resize" and a url starting "http://" |
| `Processor.ParseRouteMeaning` | pkg/services/processor/processor.go:46-77 | accepted exactly for fill/resize and in-range decimal width and height (lines 54-77); url is "http://" plus the parameter without '/' (line 47); the 400 text is the first failing check's, in order mode (line 62), width (line 69), height (line 75) |
| `Processor.AtoiErrorText` | pkg/services/processor/processor.go:66-75 | the `err.Error()` sent with 400 at lines 69 and 75 names the whole input and gives the reason `RangeError` picks |
| `Processor.UnknownModeExample` | pkg/services/processor/processor.go:59-63 | "stretch" goes to the default case and is refused with its name, before the bad height "x" is parsed |
| `Processor.SignedDimensionsExample` | pkg/services/processor/processor.go:66-77 | Atoi lets "-5" and "+0" through, so the route is accepted with width -5 and height 0 |
| `Processor.RejectedRequestTouchesNothing` | pkg/services/processor/processor.go:59-77 | each early `return` after `http.Error(..., StatusBadRequest)` answers 400 with the message and a newline, and no entry or file changes |
| `Processor.Respond` | pkg/services/processor/processor.go:79-91 | a process error gives a response with status 502 (line 82), a result 200 (lines 86-89); an exit gives no response |
| `Processor.RespondMeaning` | pkg/services/processor/processor.go:79-91 | lines 86-89: 200 as image/jpeg, with the bytes and a Content-Length that parses back to their count; line 82: 502 with the error text and a newline |
| `Processor.CropFailureReply` | integration-tests/integration_test.go:78-79 | a crop error reaches the client as 502 "failed to crop image: <cause>\n" |
| `Processor.HandleSpec` | pkg/services/processor/processor.go:42-92 | the route function: a 400 answer changes nothing; any answer other than 200 keeps every entry and file |
| `Processor.ReadCached` | pkg/services/processor/processor.go:107-109 | `imgPath.(string)` panics exactly for a value that is not a string; a string path is served exactly when it exists and reads without fault |
| `Processor.Store` | pkg/services/processor/processor.go:122-130 | lines 122-128: a write error fails the call with nothing changed, and only a write error does; the call never panics |
| `Processor.Miss` | pkg/services/processor/processor.go:112-130 | lines 112-130 never panic, and a failure changes nothing |
| `Processor.ProcessSpec` | pkg/services/processor/processor.go:96-131 | `process`: a hash error (line 105) changes nothing; every failure keeps all entries and files |
| `Processor.HashFailureTouchesNothing` | pkg/services/processor/processor.go:103-106 | line 105: a hashing error is wrapped "failed to get cacheKey hash" before the cache is touched |
| `Processor.HitDispatch` | pkg/services/processor/processor.go:107-110 | proof step (unfolds `ProcessSpec`): a key the cache holds takes the branch at line 107, the `ReadFile` outcome with the cache after `Get` |
| `Processor.MissDispatch` | pkg/services/processor/processor.go:107-131 | proof step (unfolds `ProcessSpec`): a key the cache does not hold goes on to line 112, fetch, crop, store |
| `Processor.HitServesStoredFile` | pkg/services/processor/processor.go:107-110 | lines 107-109: a hit returns exactly the stored file's bytes, or the read error unwrapped; it keeps all entries and files and promotes the key; fetcher, cropper, write and removal play no part |
| `Processor.MissFailuresTouchNothing` | pkg/services/processor/processor.go:112-126 | lines 114, 119 and 125: a fetch error (the cropper is not asked), a crop error and a write error are each wrapped with their context and leave cache and disk unchanged |
| `Processor.StoreMeaning` | pkg/services/processor/processor.go:122-130 | the whole new state after the write and `Add`: the file holds the bytes; key maps to its path as most recent. A full cache evicts `order[0]`, whose file is removed unless the hook's Fatalf exits. Nothing else changes, and the invariant is kept |
| `Processor.MissStoresResult` | pkg/services/processor/processor.go:122-130 | a successful miss is the store step: the bytes are returned unless the hook exits, stored at cacheDir/<key>.jpeg, and key maps to that path as most recent. On a full cache the oldest entry leaves, and so does its file unless the process exited |
| `Processor.StoreKeepsConsistent` | cmd/main.go:64-69 | the eviction after a store never deletes the new file or any other live entry's file |
| `Processor.ProcessKeepsConsistent` | pkg/services/processor/processor.go:96-131 | every outcome of `process` keeps the LRU invariant and the rule "each live key maps to cacheDir/key.jpeg, which exists"; the type assertion at line 108 never panics |
| `Processor.RepeatedRequestIsHit` | integration-tests/integration_test.go:108-138 | a served request, repeated, returns the same bytes from the cache and changes no entry or file, whatever the fetcher would answer |
| `Processor.Processor.constructor` | pkg/services/processor/processor.go:29-37 | `NewProcessor` keeps the given directory, cropper and cache, and starts out satisfying the invariant |
| `Processor.Processor.Process` | pkg/services/processor/processor.go:96-131 | the method walks lines 103-131 on the shared cache and disk; its result and new state equal `ProcessSpec`'s, and it keeps the invariant |
| `Processor.Processor.StoreImage` | pkg/services/processor/processor.go:122-130 | `WriteFile`, then `cache.Add`: the result and new state equal `Store`'s |
| `Processor.Processor.Serve` | pkg/services/processor/processor.go:42-92 | the route function runs as a method on the shared cache and disk; its answer and new state equal `HandleSpec`'s |
| `Lru.Without` | cmd/main.go:64 | removing a key from the recency list keeps every other key once |
| `Lru.WithoutAt` | cmd/main.go:64 | taking out a key listed once removes only its position; the keys before and after keep their order |
| `Lru.Lookup` | cmd/main.go:64 | `Get` finds a value exactly for a stored key, returns the stored value, and keeps every entry |
| `Lru.LookupMeaning` | cmd/main.go:64 | Get keeps the invariant; a hit moves the key to the most recent end, and the others keep their order; a miss changes nothing |
| `Lru.Insert` | cmd/main.go:64 | `Add` stores the value under key; an evicted entry is another key's stored entry, now gone |
| `Lru.InsertMeaning` | cmd/main.go:64 | Add keeps at most `size` entries, keeps other values and makes key most recent, the others keeping their order. It evicts exactly when a new key meets a full cache; the victim is `order[0]`, the least recently used, never the new key |
| `Lru.RecencyScenario` | cmd/main.go:64 | capacity 2: add a, add b, get a, add c evicts b and leaves [a, c] |
| `Startup.Evict` | cmd/main.go:65-70 | a string value's file is removed; other values leave the disk alone; a failed removal is fatal with "failed to remove item from cache" and changes nothing |
| `Startup.EvictTouchesOnlyItsFile` | cmd/main.go:66-68 | eviction leaves every other file's contents as they were |
| `Startup.Cache.constructor` | cmd/main.go:64 | a new cache is empty, with the given capacity and disk |
| `Startup.Cache.Get` | cmd/main.go:64 | Get behaves as the LRU lookup and keeps the invariant |
| `Startup.Cache.Add` | cmd/main.go:64-72 | Add behaves as the LRU insert and runs the hook on the victim before returning |
| `Startup.Cache.OnEvict` | cmd/main.go:64-72 | the hook's effect on the shared disk is the eviction function's |
| `Startup.SetupCache` | cmd/main.go:64-75 | a size that is not positive ends start-up with "failed to setup cache must provide a positive size"; otherwise an empty cache of that capacity |
| `Startup.SetupDefault` | cmd/main.go:37 | with the flag's default the cache is built with capacity 5 |
| `FileSystem.ReadResult` | pkg/services/processor/processor.go:108 | a read succeeds exactly for an existing file without fault and returns its contents; a missing file is "open <path>: no such file or directory" |
| `FileSystem.WriteResult` | pkg/services/processor/processor.go:123 | a write either stores the file or fails with its fault and changes nothing |
| `FileSystem.RemoveResult` | cmd/main.go:67 | a removal deletes exactly that existing file, or fails without change |
| `FileSystem.WriteThenRead` | pkg/services/processor/processor.go:123 | what a write stores is what a read returns; other files are untouched |
| `FileSystem.RemoveThenRead` | cmd/main.go:67 | a removed file can no longer be read; other files are untouched |
| `FileSystem.Disk.constructor` | cmd/main.go:51-56 | the disk the process starts with holds the given files |
| `FileSystem.Disk.ReadFile` | pkg/services/processor/processor.go:108 | `ioutil.ReadFile` on the shared disk returns what `ReadResult` gives, and a success is the file's contents |
| `FileSystem.Disk.WriteFile` | pkg/services/processor/processor.go:123 | `ioutil.WriteFile` changes the shared files exactly as `WriteResult` says |
| `FileSystem.Disk.Remove` | cmd/main.go:67 | `os.Remove` changes the shared files exactly as `RemoveResult` says |

## Left out

- The HTTP server, the router, gzip, logging, flag parsing and the temporary
  cache directory's creation and removal are plumbing. A `Fatalf` is modelled as
  the outcome `Exited` or the reply `ProcessExit`, carrying the logged text.
- Concurrency. Requests run one at a time. The route closure's shared `crop`
  variable (pkg/services/processor/processor.go:41) is a per-request local here,
  so its data race is not modelled. The same goes for duplicate concurrent
  misses and golang-lru's mutex.
- The fetcher is not part of this model. pkg/services/fetcher/fetcher.go is only
  an outcome: bytes or an error. The request headers it forwards are left out,
  as are the request context and its cancellation.
- The cropper is not part of this model. pkg/services/cropper/cropper.go's
  decoding, resampling and JPEG encoding are a deterministic function that
  either gives bytes or fails.
- golang-lru's internals. The cache is modelled by its contract: Get promotes,
  Add of a new key over capacity evicts the least recently used entry, and the
  hook runs before Add returns.
- `path.Join` is modelled as `cacheDir + "/" + key + ".jpeg"`, without
  `path.Clean`: the model's path differs from Go's for any cacheDir that
  `path.Clean` would change (a trailing '/', a `.` or `..` element, a doubled
  slash; `./cache` gives `cache/<key>.jpeg` in Go).
- File permission bits, including `WritePerm` being decimal 600. A write or a
  removal is atomic.
- `strconv.Atoi`'s error text quotes the input with `strconv.Quote`. The model
  inserts the raw bytes, which differ only for input that needs escaping.
- `strings.EqualFold` folds full Unicode; `GoText.EqualFold` folds ASCII
  letters only.
- The hasher's `Write` never fails for xxhash. The error path is kept as the
  `hashWrite` parameter so that `GetHash`'s error branch is modelled.
- A handler panic has no answer; the model gives it as `NoResponse`. It comes
  from a cached value that is not a string, or from slicing an empty url
  parameter, which the router never produces. net/http's recovery of the panic
  is not modelled.
- The success path's `w.Write` error is only logged and changes nothing.
- `Xxh64.Sum64` is given by its definition (XXH64 with seed 0, stripes, tail
  and avalanche), with no contract of its own: no simple property of a hash
  digest holds for all inputs. It is pinned down by the repository's
  "abcdefgh" vector (`Xxh64.Sum64OfAbcdefgh`). `Utils.KeyDeterminesDigest`
  shows that the key keeps all of it. The bound on the tail is
  `Xxh64.TailIsShort`.
