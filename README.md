# parsers — a Dafny model of the adapter and read cache

`parsers` wraps four third-party Markdown and front-matter libraries
(remarkable, marked, markdown-js and gray-matter) behind one calling
convention. Each wrapped library becomes an adapter
`adapter(filepath, options?, cb?)`. A trailing function selects callback
mode. The adapter then routes the call to whichever of `parse`,
`parseFile`, `parseSync` and `parseFileSync` the backend object carries.
Files the adapter reads itself go through `read`/`readSync` and a
module-wide cache, `readCache`, and are cleaned by `normalize`. gray-matter's
own `parseFile`/`parseFileSync` read through the library's `parser.read`
(index.js:309, 323) and bypass both.

This project models the logic that index.js owns itself:

- `normalize` (module `Normalizer`): drops one leading U+FEFF and every CR.
- `extend` and `callback` (module `Objects`): a shallow merge of
  objects' own properties, and the `(options, cb)` argument shuffle.
- `readCache`, `read`, `readSync` and `clearCache` (module `FileCache`):
  a class `ReadCache` that holds the cache map and counts disk reads. The
  disk is a map from path to raw contents, passed to each read.
- the adapter built by `fromStringParser` (module `Dispatcher`): the route
  chosen from the backend's capability flags and the shape of the
  arguments; the options handed to the backend; and a method `Invoke` that
  runs one call against opaque backend functions and the cache.

JavaScript values are the datatype `JsValues.Value`. An object is the map of
its own enumerable properties. Errors that the source throws or passes to a
callback are `Err` values.

Behaviour of the code worth knowing:

- `normalize` is not idempotent. `"\uFEFF\uFEFFx"` and `"\r\uFEFFx"` both
  change again on a second pass (`NormalizeNotIdempotentDoubleBom`,
  `NormalizeNotIdempotentCrBom`).
- The "Could not parse" error does not name the input.
  `new Error('Could not parse:', filepath)` passes the path as the
  constructor's options argument, so the message is the bare prefix.
- A cached read of a file that normalizes to `""` is never a hit, because
  of the `str &&` test. Such a file is read from disk on every call
  (`EmptyFileAlwaysRead`).
- A trailing callback does not always produce a callback call. For
  remarkable, marked and markdown-js the adapter returns `parseSync`'s
  result and never calls the callback (`ParseSyncOnlyIgnoresCallback`).
- The `parseFileSync` branch cannot succeed. It is reached only when the
  backend has no `parseSync`, and then calls `parseSync` on what `readSync`
  returned (index.js:195-197). After reading the file, and storing it when
  caching is on, the call throws a TypeError
  (`ParseFileSyncRouteNeverReturns`). None of the four backends reaches it.

## Model

| member | source | states |
|---|---|---|
| `JsValues.OwnProps` | index.js:74-75 | only objects contribute own enumerable properties to a `for…in`/`hasOwnProperty` walk; every other value contributes none |
| `Normalizer.StripBom` | index.js:43-44 | a leading U+FEFF is removed, exactly one; a string that does not start with one is returned unchanged |
| `Normalizer.DeleteCR` | index.js:46-47 | the result holds no CR, is no longer than the input, and is the input itself when the input holds no CR |
| `Normalizer.Normalize` | index.js:42-49 | the output holds no CR, is never longer than the input, and is the identity on input with neither a CR nor a leading BOM |
| `Normalizer.DeleteCRAppend` | index.js:47 | CR deletion distributes over concatenation, so the surviving characters keep their order |
| `Normalizer.DeleteCRSingle` | index.js:47 | on one character CR deletion keeps it exactly when it is not CR |
| `Normalizer.DeleteCRKeepsOthers` | index.js:47 | every character other than CR survives as many times as it occurs |
| `Normalizer.NormalizeKeepsOthers` | index.js:42-49 | the output keeps every non-CR character of the input as often as it occurs, less one BOM when the input starts with one |
| `Normalizer.NormalizeIdentityIff` | index.js:42-49 | `normalize(s) == s` exactly when `s` has no CR and no leading BOM |
| `Normalizer.NormalizeNotIdempotentDoubleBom` | index.js:44 | with two leading BOMs, a second `normalize` changes the first one's output |
| `Normalizer.NormalizeNotIdempotentCrBom` | index.js:44-47 | a CR in front of a BOM hides it from the first pass, so a second `normalize` changes the output |
| `Objects.MergeAll` | index.js:71-79 | reference definition of the merge: sources are laid over the target in order; every target key and every key of the last source survive |
| `Objects.MergeAllKeys` | index.js:71-79 | after the merge a key is present exactly when the target or some source has it |
| `Objects.MergeAllLastWins` | index.js:71-79 | a key defined by some source takes the value of the last source defining it |
| `Objects.MergeAllKeepsTarget` | index.js:71-79 | a key that no source defines keeps the target's value, or stays absent |
| `Objects.MergeAllSingle` | index.js:162 | merging one source into `{}` copies that source's own properties |
| `Objects.Extend` | index.js:59-81 | a nullish target gives `{}` whatever the sources; no sources give the target back; otherwise the result is the target with each source's own properties assigned in order |
| `Objects.Callback` | index.js:89-95 | reference definition of `callback`: a function in the options slot becomes the callback and the options become `{}`, otherwise both pass through; the result's options are never a function, and `CallbackIdempotent` states its partner property |
| `Objects.CallbackIdempotent` | index.js:89-95 | applying `callback` to its own result changes nothing |
| `FileCache.CacheOn` | index.js:110 | caching is off when `options.cache` is absent and on when it is `true` |
| `FileCache.Hit` | index.js:143 | a hit needs caching on and a stored entry for the path; a stored empty string is never a hit |
| `FileCache.ReadCost` | index.js:141-147 | a read costs at most one disk read, and none exactly on a hit |
| `FileCache.FileRead` | index.js:147-148 | reference definition of a file read, used by `ReadSync`/`Read`: success exactly when the disk holds the path, yielding the normalized contents, otherwise the path's read error |
| `FileCache.StoreRead` | index.js:150-152 | with caching on, a successful read is stored under exactly its path; every other entry is unchanged; with caching off, or on a failed read, the cache is unchanged |
| `FileCache.CachedRead` | index.js:140-148 | reference definition of what `read`/`readSync` deliver: a hit (caching on and a non-empty stored string) gives the stored string, anything else the file read; its promises are proved in `HitServesCached`, `CacheOffBypasses` and `CachedReadTwice` |
| `FileCache.CacheAfterRead` | index.js:140-153 | reference definition of the cache after `read`/`readSync`: a hit leaves it alone, a miss applies `StoreRead`, whose contract frames every other path |
| `FileCache.ReadCache.constructor` | index.js:16 | the cache starts empty and no file has been read |
| `FileCache.ReadCache.Clear` | index.js:30-32 | the cache is emptied and nothing else changes |
| `FileCache.ReadCache.ReadSync` | index.js:140-154 | returns the cached or freshly read and normalized string, or the read error; updates the cache as `CacheAfterRead` says; reads the disk once unless it hits |
| `FileCache.ReadCache.Read` | index.js:108-127 | delivers to the callback what `readSync` would return, with the same cache update and disk reads; a read error stores nothing |
| `FileCache.ReadCache.ReadDone` | index.js:115-126 | the completion of `fs.readFile`: one disk read, then the error, or the normalized contents stored under the path when caching is on |
| `FileCache.HitServesCached` | index.js:141-145 | on a hit the stored string is returned, even if the file has changed since; the disk is not read and the cache is unchanged |
| `FileCache.CacheOffBypasses` | index.js:147-153 | with caching off every read goes to disk, yields the normalized contents, and leaves the cache unchanged |
| `FileCache.CachedReadTwice` | index.js:140-154 | for a file that normalizes to a non-empty string, a second cached read hits, returns what the first returned, and changes nothing |
| `FileCache.EmptyFileAlwaysRead` | index.js:143 | a file that normalizes to `""` is never served from the cache; every cached read of it reads the disk |
| `FileCache.ClearedCacheMisses` | index.js:30-32 | after `clearCache` no path hits, so the next read of any path reads the disk |
| `Dispatcher.LastIsFunction` | index.js:165-172 | callback mode needs a last argument after the path that is a function; the path alone never selects it |
| `Dispatcher.CallerOptions` | index.js:161 | with no argument after the path the options are `undefined` |
| `Dispatcher.BackendOptions` | index.js:162-163 | the backend receives the caller's own properties plus `filename` set to the first argument, even when that argument is raw text |
| `Dispatcher.BackendOptionsShape` | index.js:162-163 | with no options, or with the callback in the options slot, the backend gets only `filename`; a caller's `filename` is overwritten |
| `Dispatcher.SelectRoute` | index.js:174-200 | `parse` is taken exactly when a trailing function is given and `parse` exists; `parseFile` starts a read but falls through; then `parseSync` wins over `parseFileSync`, and without either the call throws |
| `Dispatcher.SyncCompletion` | index.js:191-200 | only the `parseSync` route returns a value; the `parseFileSync` route throws the read error, or else a TypeError for the absent `parseSync`; with neither capability the call throws "Could not parse:" |
| `Dispatcher.SyncEntries` | index.js:195-196 | the synchronous part changes the cache only through `readSync`, and never at any path other than the input |
| `Dispatcher.SyncCost` | index.js:195-196 | the synchronous part reads the disk at most once, and exactly when it takes the `parseFileSync` route and misses the cache |
| `Dispatcher.ParseFileSyncRouteNeverReturns` | index.js:195-197 | a backend with `parseFileSync` but no `parseSync` never returns a value; once the file is read or cached it throws a TypeError |
| `Dispatcher.Invoke` | index.js:161-201 | one adapter call. The backend gets the copied options. For each route the contract gives what is returned or thrown, what the callback receives, the cache change and the disk reads. The `parseFileSync` route reads, and stores when caching is on, then throws a TypeError. In the `parseFile`-without-`parse` branch, a hit throws a TypeError at once; a miss lets the synchronous part run first and ends in the callback error or an uncaught TypeError |
| `Dispatcher.ParseSyncOnlyIgnoresCallback` | index.js:191-193 | a backend with only `parseSync` always runs it on the first argument; a trailing callback is never called and no file is read |
| `Dispatcher.ConfiguredBackendRoutes` | index.js:208-327 | remarkable, marked and markdown-js have only `parseSync`. matter takes `parse` when given a callback and `parseSync` otherwise. None of the four reaches `parseFile`, `readSync` or the "Could not parse" error |
| `Dispatcher.NoCallbackNoAsync` | index.js:169-188 | without a trailing function no callback route is taken and no asynchronous read is started |
| `Dispatcher.CouldNotParseDropsInput` | index.js:200 | the "Could not parse" error is the same for every input |

## Left out

- The wrapped libraries are not modelled: remarkable, marked, markdown-js and gray-matter (index.js:214-327). A backend is its capability flags plus two opaque functions for `parse` and `parseSync`, each giving a result or an error. matter's own `parse`/`parseFile` bodies are outside the model. So is the fact that a callback throwing inside their `try` is called a second time with the error.
- `fs.readFile`/`fs.readFileSync` and UTF-8 decoding are left out. They become a map from path to contents; a path missing from the map is the read error.
- Event-loop timing is simplified. `Invoke` runs the deferred completion of `fs.readFile` after the synchronous part, inside the same call.
- The lazy `require` table (`requires`, index.js:22) is module loading. It is not part of this model.
- The `try { … } catch (err) { throw err; }` wrappers change nothing and are not modelled.
- `typeof` probing becomes typed fields. The cache holds only strings, so `typeof str === 'string'` always holds. Inherited names such as `constructor`, which that test filters out, never occur in the model's map. A path named `__proto__`, whose assignment JavaScript ignores, is cached like any other.
- JavaScript numbers are integers here; NaN and fractions play no part in the module.
- Objects.Extend: models objects as values, so the in-place update of the target object is not modelled. Aliasing between the target and a source is not modelled either. The merged object is returned. All three calls in the module pass a fresh `{}` as the target (index.js:162, 184, 256).
- Objects.Extend: the target is an object or nullish. A primitive target, which would throw under `'use strict'` once a key is assigned, is not modelled.
- JsValues.OwnProps: a string source, whose indices `for…in` would enumerate, contributes no properties. Neither do properties set on a function.
- Dispatcher.BackendOptions: "the caller's object is not mutated" holds by construction in a value model and is not stated separately.
- example.js only logs calls and has no logic; it is not part of this model.
