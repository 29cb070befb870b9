/**
 * The state of FileCache and one function per operation on it: admission
 * or queueing (downloadFile), lookup (getFilePathByUrl), completion
 * bookkeeping (onDownloaderFinished), cancellation (removeDownload) and the
 * concurrency bound (init, setMaxConcurrency). The class in filecache.dfy
 * is proved to change its fields exactly as these functions say.
 */
module Scheduler {
  import opened Hex
  import opened CachePath
  import opened Requests
  import opened Downloaders

  /**
   * downloading_, pending_, maxConcurrency_ and cacheDir_, plus `fetched`:
   * the URLs handed to the network (Downloader::run), oldest first.
   */
  datatype State = State(
    downloading: map<string, Downloader>,
    pending: seq<PendingRequest>,
    maxConcurrency: int,
    cacheDir: string,
    fetched: seq<string>)

  /** A new state together with what the operation returns. */
  datatype Reply<T> = Reply(state: State, result: T)

  /** qMax. */
  function Max(a: int, b: int): (m: int)
    ensures m >= a && m >= b && (m == a || m == b)
  {
    if a < b then b else a
  }

  /** Every entry of downloading_ is keyed by its own Downloader's url. */
  predicate KeysMatch(s: State) {
    forall u :: u in s.downloading ==> s.downloading[u].url == u
  }

  /** The scheduler's invariant: never more entries in flight than the bound. */
  predicate Inv(s: State) {
    |s.downloading| <= s.maxConcurrency && KeysMatch(s)
  }

  /**
   * The object before init. The constructor does not set maxConcurrency_;
   * the singleton is a static object and so starts zeroed.
   */
  function Start(): (s: State)
    ensures Inv(s) && s.downloading == map[] && s.pending == [] && s.fetched == []
    ensures s.maxConcurrency == 0 && s.cacheDir == ""
  {
    State(map[], [], 0, "", [])
  }

  /** FileCache::init: the bound becomes max(2, idealThreadCount), whatever it was. */
  function Init(s: State, cacheDir: string, idealThreadCount: int): (t: State)
    ensures t.maxConcurrency >= 2 && t.maxConcurrency >= idealThreadCount
    ensures t.maxConcurrency == 2 || t.maxConcurrency == idealThreadCount
    ensures t.cacheDir == cacheDir
    ensures t.downloading == s.downloading && t.pending == s.pending && t.fetched == s.fetched
    ensures KeysMatch(s) && |s.downloading| <= 2 ==> Inv(t)
  {
    s.(cacheDir := cacheDir, maxConcurrency := Max(2, idealThreadCount))
  }

  /** FileCache::setMaxConcurrency: the bound only ever rises. */
  function SetMaxConcurrency(s: State, n: int): (t: State)
    ensures t.maxConcurrency >= s.maxConcurrency && t.maxConcurrency >= n
    ensures t.maxConcurrency == s.maxConcurrency || t.maxConcurrency == n
    ensures t.downloading == s.downloading && t.pending == s.pending
    ensures t.cacheDir == s.cacheDir && t.fetched == s.fetched
    ensures Inv(s) ==> Inv(t)
  {
    s.(maxConcurrency := Max(s.maxConcurrency, n))
  }

  /** FileCache::removeDownload: drop the first queued request for `url`. */
  function RemoveDownload(s: State, url: string): (r: Reply<bool>)
    ensures r.state.downloading == s.downloading && r.state.maxConcurrency == s.maxConcurrency
    ensures r.state.cacheDir == s.cacheDir && r.state.fetched == s.fetched
  {
    var i := FirstUrlIndex(s.pending, url);
    if i == -1 then Reply(s, false) else Reply(s.(pending := RemoveAt(s.pending, i)), true)
  }

  /**
   * FileCache::downloadFile: start a Downloader when there is a free slot,
   * connecting the caller's slot and then the scheduler's own; otherwise
   * append the request to the queue.
   */
  function DownloadFile(s: State, url: string, receiver: ReceiverId, member: Member, cache: bool): (t: State)
    ensures t.maxConcurrency == s.maxConcurrency && t.cacheDir == s.cacheDir
    ensures |s.downloading| < s.maxConcurrency ==>
      && t.pending == s.pending
      && t.downloading.Keys == s.downloading.Keys + {url}
      && t.downloading[url] == Downloader(url, cache, [Client(receiver, member), Bookkeeping])
      && (forall u :: u in s.downloading && u != url ==> t.downloading[u] == s.downloading[u])
      && t.fetched == s.fetched + [url]
    ensures |s.downloading| >= s.maxConcurrency ==>
      && t.downloading == s.downloading
      && t.fetched == s.fetched
      && t.pending == s.pending + [PendingRequest(url, receiver, member, cache)]
    ensures Inv(s) ==> Inv(t)
  {
    if |s.downloading| < s.maxConcurrency then
      var d := Connect(Connect(NewDownloader(url, cache), Client(receiver, member)), Bookkeeping);
      s.(downloading := s.downloading[url := d], fetched := s.fetched + [url])
    else
      s.(pending := s.pending + [PendingRequest(url, receiver, member, cache)])
  }

  /**
   * FileCache::getFilePathByUrl: a cache hit returns the path; otherwise the
   * result is "" and, in this order, an in-flight URL gains a listener, an
   * equal queued request makes the call a no-op, and a download is started
   * or queued only when `downloadIfNoExist` holds. `files` are the paths that
   * exist on disk, `md5` the hashing primitive.
   */
  function GetFilePathByUrl(s: State, files: set<string>, md5: string -> Digest, url: string,
                            downloadIfNoExist: bool, receiver: ReceiverId, member: Member): (r: Reply<string>)
    ensures r.state.maxConcurrency == s.maxConcurrency && r.state.cacheDir == s.cacheDir
  {
    var name := CacheFilePathOfUrl(s.cacheDir, md5, url);
    if name in files then
      Reply(s, name)
    else if url in s.downloading then
      Reply(s.(downloading := s.downloading[url := Connect(s.downloading[url], Client(receiver, member))]), "")
    else if IndexOf(s.pending, PendingRequest(url, receiver, member, true)) != -1 then
      Reply(s, "")
    else if downloadIfNoExist then
      Reply(DownloadFile(s, url, receiver, member, true), "")
    else
      Reply(s, "")
  }

  /**
   * FileCache::onDownloaderFinished, with the finished Downloader's url
   * passed in: remove its entry, then hand the head of the queue to
   * downloadFile and pop it.
   */
  function OnDownloaderFinished(s: State, url: string): (t: State)
    ensures t.maxConcurrency == s.maxConcurrency && t.cacheDir == s.cacheDir
  {
    var s1 := s.(downloading := s.downloading - {url});
    if s1.pending == [] then
      s1
    else
      var head := s1.pending[0];
      var s2 := DownloadFile(s1, head.url, head.receiver, head.member, head.cache);
      s2.(pending := s2.pending[1..])
  }

  // ---------------------------------------------------------------------
  // What each operation promises
  // ---------------------------------------------------------------------

  /** QMap::remove of a present key frees exactly one entry. */
  lemma RemoveKeyCardinality(m: map<string, Downloader>, k: string)
    ensures |m - {k}| == if k in m then |m| - 1 else |m|
  {
    assert (m - {k}).Keys == m.Keys - {k};
    if k in m {
      assert m.Keys == (m.Keys - {k}) + {k};
    } else {
      assert m.Keys - {k} == m.Keys;
    }
  }

  /** Repeating setMaxConcurrency with the same value changes nothing. */
  lemma SetMaxConcurrencyIdempotent(s: State, n: int)
    ensures SetMaxConcurrency(SetMaxConcurrency(s, n), n) == SetMaxConcurrency(s, n)
  {
  }

  /** A value at or below the bound leaves it as it is; a higher one raises it to that value. */
  lemma SetMaxConcurrencyCases(s: State, n: int)
    ensures n <= s.maxConcurrency ==> SetMaxConcurrency(s, n) == s
    ensures n > s.maxConcurrency ==> SetMaxConcurrency(s, n).maxConcurrency == n
  {
  }

  /**
   * init overwrites the bound: called after a higher setMaxConcurrency, it
   * lowers it. The bound is monotone only from init on.
   */
  lemma InitMayLowerBound(s: State)
    requires s.maxConcurrency == 8
    ensures Init(s, s.cacheDir, 4).maxConcurrency == 4 < s.maxConcurrency
  {
  }

  /**
   * removeDownload returns true exactly when some queued request has the
   * url; it then removes the first such request and keeps the order of all
   * others; otherwise it changes nothing. The in-flight map is never touched.
   */
  lemma RemoveDownloadRemovesFirstMatch(s: State, url: string)
    ensures var r := RemoveDownload(s, url);
      && (r.result <==> exists i :: 0 <= i < |s.pending| && s.pending[i].url == url)
      && (!r.result ==> r.state == s)
      && (r.result ==> exists i :: 0 <= i < |s.pending| && s.pending[i].url == url
                                  && (forall j :: 0 <= j < i ==> s.pending[j].url != url)
                                  && r.state.pending == s.pending[..i] + s.pending[i + 1..])
      && r.state.downloading == s.downloading
      && |s.pending| - 1 <= |r.state.pending| <= |s.pending|
      && (Inv(s) ==> Inv(r.state))
  {
    var i := FirstUrlIndex(s.pending, url);
    if i != -1 {
      assert s.pending[i].url == url;
    }
  }

  /**
   * The decision order of getFilePathByUrl. The result is the cache path on
   * a hit and "" otherwise; a hit changes nothing; an in-flight URL only
   * gains the caller as a listener, after the existing ones, and starts no
   * second fetch; an equal cache=true request in the queue, or
   * `downloadIfNoExist` false, leaves everything as it was; otherwise
   * downloadFile runs with cache=true.
   */
  lemma GetFilePathByUrlDecision(s: State, files: set<string>, md5: string -> Digest, url: string,
                                 downloadIfNoExist: bool, receiver: ReceiverId, member: Member)
    ensures var r := GetFilePathByUrl(s, files, md5, url, downloadIfNoExist, receiver, member);
      var name := CacheFilePathOfUrl(s.cacheDir, md5, url);
      var probe := PendingRequest(url, receiver, member, true);
      && (name in files ==> r.result == name && r.state == s)
      && (name !in files ==> r.result == "")
      && (name !in files && url in s.downloading ==>
            && r.state.downloading.Keys == s.downloading.Keys
            && r.state.downloading[url].listeners == s.downloading[url].listeners + [Client(receiver, member)]
            && r.state.downloading[url].url == s.downloading[url].url
            && r.state.downloading[url].cache == s.downloading[url].cache
            && (forall u :: u in s.downloading && u != url ==> r.state.downloading[u] == s.downloading[u])
            && r.state.pending == s.pending
            && r.state.fetched == s.fetched)
      && (name !in files && url !in s.downloading
          && (!downloadIfNoExist || exists i :: 0 <= i < |s.pending| && SameRequest(s.pending[i], probe))
          ==> r.state == s)
      && (name !in files && url !in s.downloading && downloadIfNoExist
          && (forall i :: 0 <= i < |s.pending| ==> !SameRequest(s.pending[i], probe))
          ==> r.state == DownloadFile(s, url, receiver, member, true))
      && (Inv(s) ==> Inv(r.state))
  {
    var name := CacheFilePathOfUrl(s.cacheDir, md5, url);
    var probe := PendingRequest(url, receiver, member, true);
    if name !in files && url !in s.downloading {
      var k := IndexOf(s.pending, probe);
      if k != -1 {
        assert SameRequest(s.pending[k], probe);
      }
    }
  }

  /** The result of getFilePathByUrl is never both a hit and empty: a cache path is never "". */
  lemma GetFilePathByUrlResult(s: State, files: set<string>, md5: string -> Digest, url: string,
                               downloadIfNoExist: bool, receiver: ReceiverId, member: Member)
    ensures var r := GetFilePathByUrl(s, files, md5, url, downloadIfNoExist, receiver, member);
      (r.result != "") <==> CacheFilePathOfUrl(s.cacheDir, md5, url) in files
  {
  }

  /**
   * getFilePathByUrl issues at most one network fetch, for `url` itself, and
   * none at all on a cache hit or while `url` is already in flight.
   */
  lemma GetFilePathByUrlFetchesAtMostOnce(s: State, files: set<string>, md5: string -> Digest, url: string,
                                          downloadIfNoExist: bool, receiver: ReceiverId, member: Member)
    ensures var r := GetFilePathByUrl(s, files, md5, url, downloadIfNoExist, receiver, member);
      && (r.state.fetched == s.fetched || r.state.fetched == s.fetched + [url])
      && (url in s.downloading || r.result != "" ==> r.state.fetched == s.fetched)
  {
  }

  /**
   * onDownloaderFinished frees the finished URL's slot. With an empty queue
   * that is all. When the slot freed makes room, the oldest queued request
   * is started and leaves the queue, the others keep their order and every
   * other transfer in flight is left as it was. When there is still no room (the URL was not in flight and the map is
   * full), the head is queued again at the tail before being popped, so it
   * moves behind the others. The invariant is kept.
   */
  lemma OnDownloaderFinishedServesHead(s: State, url: string)
    ensures var t := OnDownloaderFinished(s, url);
      && (s.pending == [] ==> t == s.(downloading := s.downloading - {url}))
      && (s.pending != [] && |s.downloading - {url}| < s.maxConcurrency ==>
            var head := s.pending[0];
            && t.pending == s.pending[1..]
            && t.downloading.Keys == s.downloading.Keys - {url} + {head.url}
            && t.downloading[head.url] == Downloader(head.url, head.cache, [Client(head.receiver, head.member), Bookkeeping])
            && (forall u :: u in s.downloading && u != url && u != head.url ==> t.downloading[u] == s.downloading[u])
            && t.fetched == s.fetched + [head.url])
      && (s.pending != [] && |s.downloading - {url}| >= s.maxConcurrency ==>
            && t.downloading == s.downloading - {url}
            && t.pending == s.pending[1..] + [s.pending[0]]
            && t.fetched == s.fetched)
      && (Inv(s) && url in s.downloading ==> |s.downloading - {url}| < s.maxConcurrency)
      && (Inv(s) ==> Inv(t))
  {
    RemoveKeyCardinality(s.downloading, url);
    if s.pending != [] {
      if |s.downloading - {url}| < s.maxConcurrency {
        FinishedWithRoom(s, url);
        var t := OnDownloaderFinished(s, url);
        forall u | u in s.downloading && u != url && u != s.pending[0].url
          ensures t.downloading[u] == s.downloading[u]
        {
          assert u in s.downloading - {url};
        }
      } else {
        FinishedWithoutRoom(s, url);
      }
    }
  }

  /** The branch with room: the whole new state, entry by entry. */
  lemma FinishedWithRoom(s: State, url: string)
    requires s.pending != [] && |s.downloading - {url}| < s.maxConcurrency
    ensures var head := s.pending[0];
      var d := Downloader(head.url, head.cache, [Client(head.receiver, head.member), Bookkeeping]);
      var t := OnDownloaderFinished(s, url);
      && t == s.(downloading := (s.downloading - {url})[head.url := d],
                 pending := s.pending[1..],
                 fetched := s.fetched + [head.url])
      && (Inv(s) ==> Inv(t))
  {
  }

  /** The branch without room: the head is queued again behind the others. */
  lemma FinishedWithoutRoom(s: State, url: string)
    requires s.pending != [] && |s.downloading - {url}| >= s.maxConcurrency
    ensures OnDownloaderFinished(s, url)
         == s.(downloading := s.downloading - {url}, pending := s.pending[1..] + [s.pending[0]])
  {
    assert (s.pending + [s.pending[0]])[1..] == s.pending[1..] + [s.pending[0]];
  }

  /**
   * The completion of a transfer in flight starts the oldest queued request,
   * if any, and removes it from the queue.
   */
  lemma FinishedInFlightPromotesHead(s: State, url: string)
    requires Inv(s) && url in s.downloading
    ensures var t := OnDownloaderFinished(s, url);
      && t.pending == (if s.pending == [] then [] else s.pending[1..])
      && t.fetched == s.fetched + (if s.pending == [] then [] else [s.pending[0].url])
      && Inv(t)
  {
    OnDownloaderFinishedServesHead(s, url);
  }

  /**
   * A cached transfer that wrote its file is a cache hit afterwards: once
   * the completion is processed, getFilePathByUrl for the same URL returns
   * exactly the path the finished event reported, and changes nothing.
   */
  lemma CompletedDownloadIsCacheHit(s: State, md5: string -> Digest, url: string, error: NetworkError,
                                    body: string, files: set<string>, downloadIfNoExist: bool,
                                    receiver: ReceiverId, member: Member)
    requires url in s.downloading && s.downloading[url].cache
    ensures var c := OnFinished(s.downloading[url], s.cacheDir, md5, error, body, true, files);
      var t := OnDownloaderFinished(s, url);
      GetFilePathByUrl(t, c.files, md5, s.downloading[url].url, downloadIfNoExist, receiver, member)
        == Reply(t, c.event.filePathOrData)
  {
  }
}
