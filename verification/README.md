# Intervention imagecache: a verified model of ImageCache and Filesystem

This project models two pieces of the Intervention imagecache package in Dafny.

**`ImageCache`** (module `ImageCache`, file `image_cache.dfy`) works like this:
- It records every unknown method call made on it (`__call`) as a `{name, arguments}` record, in order.
- Its `checksum` is `md5(serialize(calls))`.
- `process` replays the recorded calls on a fresh `CachedImage` as a left fold.
  - A call whose name the current image lacks is skipped.
  - `make`, `canvas` and `raw` are forwarded statically.
  - The result is stamped with the checksum, and then the list is cleared.
- `get` serves the encoded image through an external cache.
  - On a hit (a truthy cached value) it returns the cached bytes, or an image rebuilt from them.
  - On a miss it processes the calls, `put`s the encoded image under the checksum and returns it.

The external collaborators are abstract values:
- The image library is the `Engine` record of `image_engine.dfy`: a blank image, `method_exists`, the call itself, the `(string)` cast and construction from bytes.
- `md5(serialize(...))` is an uninterpreted function of the call list, held by the object as `fingerprint`.
- The cache repository is the class `CacheRepository.Repository`: a map of entries plus a log of every `put`.
- A ghost counter `processRuns` records how often `process` ran, so that "processed exactly once" and "not processed" can be stated.

**`Filesystem`** (module `Filesystem`, file `filesystem.dfy`) works like this:
- `find` removes every `..` from a file name in one left-to-right pass (`str_replace`), with `RemoveDotDot` as the model of that pass.
- It tries `root + "/" + name` for each configured root in order, and answers the first candidate that is an existing regular file.
- Otherwise it throws `FileNotFoundException`, modelled as `Err(FileNotFound)`.
- `get` and `lastModified` read the contents and the modification time of the path `find` answers.
- The disk is a map from path to entry (a regular file with contents and mtime, or a directory). `file_exists` is membership in that map and `is_file` is "the entry is a regular file".
- `ImageCacheController::getImagePath` (src/Intervention/Image/ImageCacheController.php:136-150) runs the same search over the configured paths, so `Locate` describes it too. Only its `abort(404)` differs from the exception.

Two facts of `ImageCache.php` shape the model:
- It has no property bag and no modification-time input, so the checksum is a function of the call list alone.
- A recorded call the image lacks is skipped (line 144), not reported as an error (`UnknownCallSkipped`).

## Model

| member | source | states |
|---|---|---|
| `ImageCache.ImageCache.constructor` | src/Intervention/Image/ImageCache.php:47-78 | with an injected cache repository: the object uses that cache, the lifetime is 5 minutes, no call is recorded and no image is processed |
| `ImageCache.ImageCache.Intercept` | src/Intervention/Image/ImageCache.php:87-92 | any method call is recorded: the list becomes the old list plus `Call(name, arguments)` at the end, and the same object is returned for chaining |
| `ImageCache.ImageCache.RegisterCall` | src/Intervention/Image/ImageCache.php:111-114 | appends exactly one entry: the list grows by one, earlier entries are unchanged and in order, the last entry is `{name, arguments}` |
| `ImageCache.ImageCache.ClearCalls` | src/Intervention/Image/ImageCache.php:121-124 | the recorded list is empty afterwards and nothing else changes |
| `ImageCache.ImageCache.GetCalls` | src/Intervention/Image/ImageCache.php:131-134 | the conditional answers exactly the recorded list, empty or not |
| `ImageCache.ImageCache.Checksum` | src/Intervention/Image/ImageCache.php:99-102 | the checksum is the fingerprint of the current call list only; as a reading function it changes nothing, so equal lists and repeated calls give equal checksums |
| `ImageCache.Step` | src/Intervention/Image/ImageCache.php:144-152 | one replay step: the image is kept when it lacks the method, otherwise it is replaced by the engine's answer, dispatched statically exactly for the names in `ReservedStaticCalls` (line 42) |
| `ImageCache.Replay` | src/Intervention/Image/ImageCache.php:167-169 | the `foreach` over the calls as a left fold of `Step` from a given image |
| `ImageCache.Truthy` | src/Intervention/Image/ImageCache.php:197 | PHP truthiness of the cached value: `null`, `""` and `"0"` are false, every other string is true |
| `ImageCache.ImageCache.ProcessCall` | src/Intervention/Image/ImageCache.php:142-154 | replaces the current image with one replay step (skip if the image lacks the method, else forward it, statically for reserved names) and keeps its cache key |
| `ImageCache.ReplayAppend` | src/Intervention/Image/ImageCache.php:164-169 | the replay is a left fold: replaying `a + b` equals replaying `b` on the image produced by `a` |
| `ImageCache.ReplayOneMore` | src/Intervention/Image/ImageCache.php:167-169 | replaying one more call applies one `processCall` step to the image produced by the earlier calls |
| `ImageCache.UnknownCallSkipped` | src/Intervention/Image/ImageCache.php:144 | a call whose name the current image does not have leaves the image unchanged: the result equals the replay without that call |
| `ImageCache.KnownCallDispatched` | src/Intervention/Image/ImageCache.php:144-152 | a call the current image has is forwarded to the engine with its arguments, statically exactly when its name is `make`, `canvas` or `raw` |
| `ImageCache.ImageCache.Process` | src/Intervention/Image/ImageCache.php:161-177 | the result is the left fold of the recorded calls, in order, from a fresh image; its cachekey is the checksum of the list as it was when `process` started; the list is empty afterwards; the result is kept as the current image; process ran once more |
| `ImageCache.ImageCache.Get` | src/Intervention/Image/ImageCache.php:187-220 | hit (truthy cached value): returns it verbatim, or an image decoded from it whose cachekey is the key; the calls, image, cache and put log are unchanged and nothing is processed. Miss (`null`, `""`, `"0"`): processes once and appends exactly one put of the encoded image under the checksum taken before processing, with lifetime 5 (or the current lifetime field) for `null` and the given value otherwise; returns the stored bytes, or the processed image, whose cachekey is the put key |
| `ImageCache.RepeatedRequestHitsCache` | src/Intervention/Image/ImageCache.php:191-218 | after a miss stores truthy bytes, a second object with the same calls and cache gets the same bytes back without processing, and only the first request wrote to the cache |
| `CacheRepository.Repository.Get` | src/Intervention/Image/ImageCache.php:194 | the cache's `get` answers the stored value for a present key and `null` for a missing one |
| `CacheRepository.Repository.Put` | src/Intervention/Image/ImageCache.php:215 | the cache's `put` stores the value under the key and logs exactly one `(key, value, minutes)` record |
| `Filesystem.RemoveDotDot` | src/Intervention/Image/Filesystem.php:62-63 | after the single-pass removal the name contains no `..`, and a name not starting with a dot keeps its first character |
| `Filesystem.RemoveDotDotKeepsClean` | src/Intervention/Image/Filesystem.php:63 | a name that contains no `..` is left unchanged |
| `Filesystem.RemoveDotDotIdempotent` | src/Intervention/Image/Filesystem.php:63 | removing `..` twice gives the same name as removing it once |
| `Filesystem.RemoveDotDotDropsDotPairs` | src/Intervention/Image/Filesystem.php:63 | only dots are removed (the non-dot characters are the same, in order), and an even number of them |
| `Filesystem.Locate` | src/Intervention/Image/Filesystem.php:58-71 | a path found by the search is an existing regular file |
| `Filesystem.LocateFirstMatch` | src/Intervention/Image/Filesystem.php:61-68 | if root i's candidate is a regular file and no earlier root's candidate is, the search answers root i's candidate |
| `Filesystem.LocateFound` | src/Intervention/Image/Filesystem.php:61-68 | any answered path is some root's candidate `root + "/" + sanitised name`, is a regular file, and no earlier root's candidate is one |
| `Filesystem.LocateNotFound` | src/Intervention/Image/Filesystem.php:61-70 | the search fails with FileNotFound exactly when no root's candidate is a regular file; with no roots it always fails |
| `Filesystem.LocateUnderRoot` | src/Intervention/Image/Filesystem.php:63-66 | any answered path starts with one of the configured roots followed by `/` |
| `Filesystem.Filesystem.constructor` | src/Intervention/Image/Filesystem.php:19-22 | the root list is the one given; it is a constant and cannot be modified later |
| `Filesystem.Filesystem.Find` | src/Intervention/Image/Filesystem.php:58-71 | the loop over the roots answers exactly `Locate`: the first root whose candidate is a regular file, else FileNotFound; it modifies nothing |
| `Filesystem.Filesystem.Get` | src/Intervention/Image/Filesystem.php:32-35 | reads the contents of exactly the path `find` answers, or propagates its FileNotFound |
| `Filesystem.Filesystem.LastModified` | src/Intervention/Image/Filesystem.php:45-48 | reads the modification time of exactly the path `find` answers, or propagates its FileNotFound |

## Left out

- `md5` and PHP `serialize` are one uninterpreted, total function of the call list. The literal digests in the tests cannot be checked, and collision resistance cannot be stated.
- Closure arguments are not modelled. `ImageCache.php` serialises the call list without any closure wrapper, so PHP's `serialize` throws on a closure argument. `checksum` then throws, `get` throws at line 191 before reading the cache, and `process` throws at line 172 after the fold, leaving the calls uncleared and `cachekey` null. The argument type `Value` has no closure case, so these paths cannot arise in the model.
- Float arguments (`blur(1.5)`) and associative-array arguments are not modelled: `Value` has only `null`, booleans, integers, strings and lists. They only feed the uninterpreted fingerprint and the abstract engine, so adding them would change no contract.
- The image library is abstract: `resize`, `blur`, `encode`, the `(string)` cast and construction of a `CachedImage` from bytes. Its calls are pure functions of their inputs. So the two `(string)` casts on the miss path give the same bytes.
- ImageCache.ImageCache.Get: the lifetime argument is `null` or an integer. PHP's `intval` of strings, floats and other values is not modelled.
- ImageCache.ImageCache.constructor: only the injected-cache branch is modelled. The lookup of a Laravel application cache and the default file store (src/Intervention/Image/ImageCache.php:49-73) are framework plumbing.
- The cache repository's expiry after the lifetime is not modelled. An entry stays until it is overwritten.
- The image engine's methods are assumed not to touch the `cachekey` property. The model carries the key beside the image state.
- A PHP exception thrown by an image method during replay is not modelled, because the engine's calls are total functions.
- Real file I/O is not modelled: `file_get_contents`, `filemtime`, `file_exists` and `is_file` read an abstract disk map. A read that fails after `find` succeeded (permissions, a race) is not modelled.
- Concurrent sessions sharing one cache are not modelled, since the code does not address them.
- `ImageCacheController` (HTTP responses, MIME sniffing, config lookup) and `HashableClosure` are not part of this model, and neither are `setProperty`, an injected image manager and modification-time sensitivity. Those three appear only in the tests, not in `ImageCache.php`.
