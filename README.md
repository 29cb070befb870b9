# FileCache download scheduler, modelled in Dafny

FileCache is a single-threaded download manager. It fetches a URL over HTTP and stores the result
either in a cache file or in memory. It limits how many transfers run at once. It queues excess
requests in arrival order. It coalesces a request for a URL already in flight into that transfer.
This project models its scheduling core, `FileCache` and `Downloader` in `FileCache/filecache.cpp`
and `FileCache/filecache.h`, and proves properties of the model.

Layout:

- `hex.dfy` (module `Hex`): `QByteArray::toHex` as `ToHex`, and the decoder `FromHex` it is checked against.
- `cache_path.dfy` (module `CachePath`): `makeCacheFilePathByUrl` as a function of the cache
  directory and the URL's digest. It comes with its shape, its parser and its injectivity.
- `requests.dfy` (module `Requests`): the `PendingRequest` record and its `operator==` (`SameRequest`).
  The record is a datatype, so its constructor stores url, receiver, member and cache flag as given.
  It also holds `QList::indexOf` (`IndexOf`), the first-URL search of `removeDownload`, and `QList::removeAt`.
- `downloader.dfy` (module `Downloaders`): a `Downloader` is its url, its cache flag and the slots
  connected to its `finished` signal. `OnFinished` is `Downloader::onFinished`.
- `scheduler.dfy` (module `Scheduler`): the object's state (`downloading_`, `pending_`, `maxConcurrency_`,
  `cacheDir_`) as a value, with one function per C++ operation. Each operation's lemmas are stated there.
- `scheduler_runs.dfy` (module `SchedulerRuns`): properties of whole sequences of operations.
  These are the in-flight bound and FIFO service of the queue.
- `filecache.dfy` (module `Cache`): class `FileCache`, whose fields are the C++ fields. Its methods
  mirror the C++ methods, including the index loop of `removeDownload` and the calls from
  `getFilePathByUrl` and `onDownloaderFinished` into `downloadFile`. Each method is proved to leave
  `Model()` equal to the matching `Scheduler` function applied to the old state. So every lemma about
  those functions holds of the object.

How the surroundings are represented:

- MD5 of the URL (RFC 1321) is a function value `md5: string -> Digest`, and a `Digest` is 16 bytes.
  It is a constant of the object and a parameter of the functions.
- `QFile::exists` is a parameter `files: set<string>`, the set of paths that exist.
- `Downloader::run` is recorded in a ghost log `fetched` of the URLs handed to the network, oldest first.
- `sender()` in `onDownloaderFinished` is replaced by the finished Downloader's url, passed in.
- `connect` appends a `Listener` to the Downloader's list. The list holds either a caller's receiver
  and member, or `Bookkeeping`, the scheduler's own `onDownloaderFinished` slot.
- `QThread::idealThreadCount` is a parameter of `Init`.

Behaviours of the code that the model keeps:

- The separator is always a literal backslash, not the platform's separator.
- `init` overwrites the bound with `max(2, idealThreadCount)`. Called after a larger
  `setMaxConcurrency`, it lowers the bound (`InitMayLowerBound`). The bound never decreases only
  from `init` on; the multi-step lemmas therefore start after `init`.
- The constructor does not set `maxConcurrency_`. The object is a function-local static and so
  starts zeroed (`Start`: bound 0, empty cache directory). Before `init`, and before any
  `setMaxConcurrency` with a positive value, every `downloadFile` queues.
- `downloadFile` uses `QMap::insert`, which replaces an entry already present. This happens when
  `downloadFile` is called directly, or when a queued request is promoted while its URL is in flight.
  Map keys are unique, but the model does not claim one transfer per URL at all times.
  `getFilePathByUrl` never starts a second fetch for an in-flight URL (`GetFilePathByUrlFetchesAtMostOnce`).
- A completion whose URL is no longer a key can still arrive, because an entry may have been replaced.
  If the map is then full, the head of the queue is queued again at the tail and then popped.
  So it moves behind the other queued requests (`OnDownloaderFinishedServesHead`). FIFO is proved for
  completions of URLs in flight (`DrainServesQueueInOrder`).
- Equality of pending requests compares the member's characters (`strcmp`), not its pointer.
  The duplicate probe in `getFilePathByUrl` always uses `cache = true`.
- Raising the bound lets new requests start while older ones are still queued. FIFO holds among
  the queued requests only.

## Model

| member | source | states |
|---|---|---|
| `Hex.ToHex` | FileCache/filecache.cpp:157 | the hex text has two characters per byte, all of them lower-case hex digits |
| `Hex.FromHexToHex` | FileCache/filecache.cpp:157 | decoding the hex text of any byte string gives that byte string back |
| `Hex.ToHexFromHex` | FileCache/filecache.cpp:157 | every even-length lower-case hex text is the encoding of the bytes it decodes to |
| `Hex.ToHexInjective` | FileCache/filecache.cpp:157 | distinct digests have distinct hex texts |
| `CachePath.CacheFilePath` | FileCache/filecache.cpp:150-159 | the path starts with the cache directory; it has one separator and then exactly 32 lower-case hex characters |
| `CachePath.CacheFilePathShape` | FileCache/filecache.cpp:152-157 | the path is the directory plus the digest's hex, with a backslash in between only when the directory does not already end in one |
| `CachePath.CacheFilePathNoDoubledSeparator` | FileCache/filecache.cpp:153-156 | every pair of adjacent backslashes in the path lies inside the given directory, so the join adds none |
| `CachePath.ParseCacheFilePathOfCacheFilePath` | FileCache/filecache.cpp:152-158 | splitting a built path gives back the normalised directory and the digest |
| `CachePath.CacheFilePathInjective` | FileCache/filecache.cpp:157-158 | in one cache directory, two URLs share a path only if their digests are equal |
| `Requests.SameRequestIsEquivalence` | FileCache/filecache.cpp:10-13 | operator== is reflexive, symmetric and transitive |
| `Requests.SameRequestIgnoresMemberAddress` | FileCache/filecache.cpp:12 | two requests are equal iff url, receiver, member text and cache flag match; where the member string is stored does not matter |
| `Requests.IndexOf` | FileCache/filecache.cpp:119 | -1 iff no queued request equals the probe; otherwise the first index of an equal request |
| `Requests.FirstUrlIndex` | FileCache/filecache.cpp:90-97 | -1 iff no queued request has the url; otherwise the first index of one that has it |
| `Requests.RemoveAt` | FileCache/filecache.cpp:94 | one entry fewer; entries before the index are kept and later ones shift down by one, in order |
| `Downloaders.NewDownloader` | FileCache/filecache.cpp:15-19 | a new Downloader keeps the url and cache flag it was given and has no slots connected |
| `Downloaders.GetUrlAfterConnects` | FileCache/filecache.cpp:50-53 | getUrl returns the url the Downloader was constructed with, after any number of connects; the cache flag is kept and the slots are exactly those connected, in order |
| `Downloaders.ConnectAllKeepsFields` | FileCache/filecache.cpp:138-139 | a series of connects keeps url and cache flag and appends the slots in the order connected |
| `Downloaders.Connect` | FileCache/filecache.cpp:138-139 | connecting keeps url and cache flag and appends the slot after all earlier ones |
| `Downloaders.OnFinished` | FileCache/filecache.cpp:27-48 | one event with the reply's error and the url; its third field is the cache path when caching and the body otherwise; the path is added to the existing files exactly when the file could be opened, and the set is otherwise unchanged |
| `Downloaders.OnFinishedReportsPathEvenIfWriteFails` | FileCache/filecache.cpp:32-42 | a caching Downloader emits the same event whether or not the file was opened, with a path inside the cache directory |
| `Scheduler.Start` | FileCache/filecache.cpp:55-60 | the object starts with nothing in flight, an empty queue, an empty fetch log, bound 0 and an empty cache directory, which satisfies the invariant |
| `Scheduler.Init` | FileCache/filecache.cpp:67-74 | after init the bound is max(2, idealThreadCount), so at least 2; the map and queue are unchanged |
| `Scheduler.InitMayLowerBound` | FileCache/filecache.cpp:71-72 | init can lower a bound raised earlier by setMaxConcurrency |
| `Scheduler.SetMaxConcurrency` | FileCache/filecache.cpp:82-86 | the bound becomes the larger of the old bound and the argument; nothing else changes and the invariant is kept |
| `Scheduler.SetMaxConcurrencyIdempotent` | FileCache/filecache.cpp:84 | setting the same value twice is the same as once |
| `Scheduler.SetMaxConcurrencyCases` | FileCache/filecache.cpp:84 | a value not above the bound changes nothing; a higher value becomes the bound |
| `Scheduler.RemoveDownload` | FileCache/filecache.cpp:88-99 | removeDownload never touches the in-flight map, the bound or the fetch log |
| `Scheduler.RemoveDownloadRemovesFirstMatch` | FileCache/filecache.cpp:88-99 | true iff some queued request has the url; then exactly the first such one is removed and the others keep their order; false leaves the state unchanged |
| `Scheduler.DownloadFile` | FileCache/filecache.cpp:132-148 | below the bound the url becomes a key with a new Downloader, the caller's slot and then the bookkeeping slot; other entries and the queue stay unchanged and one fetch is issued; otherwise exactly that request is appended to the queue; the invariant is kept |
| `Scheduler.GetFilePathByUrl` | FileCache/filecache.cpp:101-130 | getFilePathByUrl never changes the bound or the cache directory |
| `Scheduler.GetFilePathByUrlDecision` | FileCache/filecache.cpp:101-130 | a cache hit returns the path and changes nothing; otherwise the result is "". An in-flight url only gains the caller's slot after the existing ones. An equal cache=true queued request, or no download wanted, changes nothing. Otherwise downloadFile runs with cache=true. The invariant is kept |
| `Scheduler.GetFilePathByUrlResult` | FileCache/filecache.cpp:103-107 | the result is non-empty iff the cache file exists |
| `Scheduler.GetFilePathByUrlFetchesAtMostOnce` | FileCache/filecache.cpp:110-129 | at most one fetch, of that url; none on a cache hit or while the url is in flight |
| `Scheduler.OnDownloaderFinished` | FileCache/filecache.cpp:161-172 | completion never changes the bound or the cache directory |
| `Scheduler.OnDownloaderFinishedServesHead` | FileCache/filecache.cpp:161-172 | the finished url's entry is removed. With room, the queue's head starts and leaves the queue, the rest keep their order, and every other Downloader in flight, with its slots, is unchanged. Without room, the head moves to the tail. With an empty queue nothing else changes. The invariant is kept |
| `Scheduler.FinishedWithRoom` | FileCache/filecache.cpp:164-170 | with room after the removal, the new state is exactly: the finished url's entry removed, the head's url mapped to a new Downloader with the head's slot and the bookkeeping slot, the head popped and one fetch of its url; the invariant is kept |
| `Scheduler.FinishedWithoutRoom` | FileCache/filecache.cpp:164-170 | without room after the removal, the new state is exactly: the finished url's entry removed and the head moved behind the other queued requests, with no fetch |
| `Scheduler.FinishedInFlightPromotesHead` | FileCache/filecache.cpp:164-170 | completion of an in-flight url always makes room, so the head of the queue is fetched and popped |
| `Scheduler.CompletedDownloadIsCacheHit` | FileCache/filecache.cpp:32-42 | after a caching transfer wrote its file and its completion was processed, a lookup of that url returns the reported path and changes nothing |
| `SchedulerRuns.Step` | FileCache/filecache.cpp:84 | no operation after init lowers the bound |
| `SchedulerRuns.StepKeepsInv` | FileCache/filecache.h:79-81 | every operation after init keeps the in-flight map within the bound, keyed by each Downloader's url |
| `SchedulerRuns.RunKeepsInvAndBound` | FileCache/filecache.cpp:135-147 | after any sequence of operations the map is within the bound and the bound is no lower than before |
| `SchedulerRuns.DrainServesQueueInOrder` | FileCache/filecache.cpp:166-171 | when k in-flight transfers finish one after another, the first k queued requests are fetched in queue order and exactly they leave the queue |
| `SchedulerRuns.ThreeRequestsTwoSlots` | FileCache/filecache.cpp:132-147 | with bound 2 and no cached files, lookups of three different urls start the first two and queue the third |
| `SchedulerRuns.ThenFirstFinishes` | FileCache/filecache.cpp:161-172 | when the first of them then finishes, the queued third starts, the second stays in flight and the first is gone |
| `Cache.FileCache.constructor` | FileCache/filecache.cpp:55-60 | the fields start empty with bound 0 |
| `Cache.FileCache.Init` | FileCache/filecache.cpp:67-74 | the fields change as Scheduler.Init says; the bound is at least 2 |
| `Cache.FileCache.SetMaxConcurrency` | FileCache/filecache.cpp:82-86 | the fields change as Scheduler.SetMaxConcurrency says; the bound does not decrease |
| `Cache.FileCache.RemoveDownload` | FileCache/filecache.cpp:88-99 | the index loop returns and removes as Scheduler.RemoveDownload says; true iff a queued request has the url |
| `Cache.FileCache.MakeCacheFilePathByUrl` | FileCache/filecache.cpp:150-159 | the path starts with cacheDir_ and ends in the 32 hex characters of the URL's digest |
| `Cache.FileCache.GetFilePathByUrl` | FileCache/filecache.cpp:101-130 | result and new fields as Scheduler.GetFilePathByUrl says; the result is "" or the cache path; no fetch and no new key for an in-flight url |
| `Cache.FileCache.DownloadFile` | FileCache/filecache.cpp:132-148 | fields as Scheduler.DownloadFile says: admitted below the bound with the queue unchanged, otherwise appended with the map unchanged |
| `Cache.FileCache.OnDownloaderFinished` | FileCache/filecache.cpp:161-172 | fields as Scheduler.OnDownloaderFinished says; after an in-flight completion the head is fetched and popped |

## Left out

- Network I/O: `Downloader::run`, `QNetworkAccessManager::get`, `QNetworkReply` and `deleteLater`
  are not modelled. A fetch is an entry in the ghost log `fetched`. A completion is a call with its url.
  A transfer's error code and body are parameters of `OnFinished`.
- Two Downloaders for the same URL cannot be told apart, because the url replaces `sender()`.
  The completion of a replaced Downloader is the same call as the completion of its successor.
  This matches what the code does, since it also removes by url.
- The signal delivery itself is not modelled: the order in which connected slots run, and the
  event each one receives. Only the list of connected slots and the single event are modelled.
- Filesystem: existence is the `files` parameter. Opening the file is a boolean parameter.
  A successful open adds the path to the set of files. Partial or failed writes after the open are
  not modelled. The write error is never reported, as in the code.
- MD5 and `QString::toAscii` are the `md5` function value, and `fromUtf8` decoding of the body is
  assumed done. No property of MD5 beyond producing 16 bytes is used.
- The singleton `instance()`, the private copy constructor and assignment, the destructor and
  `networkAccessManager_` are not modelled; the object is constructed directly.
- `qDebug` logging is left out.
- Concurrency: the component is documented as not thread-safe, and the model is sequential.
- Integer widths: `maxConcurrency_`, `idealThreadCount` and the map size are unbounded integers. No 32-bit overflow is modelled.
- `strcmp` on a null member pointer is undefined in C++; a member is always a string here.
- Misuse before `init` or with a bad receiver is treated as success. `setMaxConcurrency` with a
  positive value before `init` lets `downloadFile` start a transfer, which in the code calls
  `run` on the still-null network manager (`filecache.cpp:57`, `141`, `23`); the model admits the
  request and logs a fetch. A `connect` with a null receiver or an unknown member signature
  (`filecache.cpp:115`, `138`) fails in Qt and adds no slot; the model always appends the `Listener`.
- `Cache.FileCache.Init`: promises the invariant only when nothing is in flight. The code does not
  promise it otherwise, since `init` may lower the bound below the number of transfers in flight.
