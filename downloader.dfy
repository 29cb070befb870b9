/**
 * Downloader: one network transfer of one URL. Its url and cache flag are
 * written only by its constructor; what changes afterwards is the list of
 * slots connected to its `finished` signal, kept here in connection order.
 */
module Downloaders {
  import opened Hex
  import opened CachePath
  import opened Requests

  /** A slot connected to `finished`: a caller's receiver and member, or the scheduler's own bookkeeping slot. */
  datatype Listener = Client(receiver: ReceiverId, member: Member) | Bookkeeping

  datatype Downloader = Downloader(url: string, cache: bool, listeners: seq<Listener>)
  {
    /** Downloader::getUrl. */
    function GetUrl(): (u: string)
      ensures u == url
    {
      url
    }
  }

  /** QNetworkReply::NetworkError; 0 is NoError. */
  type NetworkError = int

  /** The arguments of the `finished` signal. */
  datatype FinishedEvent = FinishedEvent(error: NetworkError, url: string, filePathOrData: string)

  /** What a finished transfer produces: its one event and the files that exist afterwards. */
  datatype Completion = Completion(event: FinishedEvent, files: set<string>)

  /** Downloader::Downloader: the fields as given, nothing connected yet. */
  function NewDownloader(url: string, cache: bool): (d: Downloader)
    ensures d.GetUrl() == url && d.cache == cache && d.listeners == []
  {
    Downloader(url, cache, [])
  }

  /** QObject::connect on `finished`: one more slot, called after the earlier ones. */
  function Connect(d: Downloader, l: Listener): (r: Downloader)
    ensures r.url == d.url && r.cache == d.cache
    ensures |r.listeners| == |d.listeners| + 1
    ensures r.listeners[..|d.listeners|] == d.listeners && r.listeners[|d.listeners|] == l
  {
    d.(listeners := d.listeners + [l])
  }

  /** Several connects, one after another, in the order given. */
  function ConnectAll(d: Downloader, ls: seq<Listener>): Downloader
    decreases |ls|
  {
    if ls == [] then d else ConnectAll(Connect(d, ls[0]), ls[1..])
  }

  /** Connecting never touches url or cache flag; the slots are appended in order. */
  lemma {:induction false} ConnectAllKeepsFields(d: Downloader, ls: seq<Listener>)
    ensures ConnectAll(d, ls).url == d.url && ConnectAll(d, ls).cache == d.cache
    ensures ConnectAll(d, ls).listeners == d.listeners + ls
    decreases |ls|
  {
    if ls != [] {
      var d1 := Connect(d, ls[0]);
      ConnectAllKeepsFields(d1, ls[1..]);
      assert d1.listeners + ls[1..] == d.listeners + ls;
    }
  }

  /**
   * getUrl returns the url the Downloader was constructed with, however
   * many slots have been connected to it since.
   */
  lemma GetUrlAfterConnects(url: string, cache: bool, ls: seq<Listener>)
    ensures ConnectAll(NewDownloader(url, cache), ls).GetUrl() == url
    ensures ConnectAll(NewDownloader(url, cache), ls).cache == cache
    ensures ConnectAll(NewDownloader(url, cache), ls).listeners == ls
  {
    ConnectAllKeepsFields(NewDownloader(url, cache), ls);
  }

  /**
   * Downloader::onFinished. `body` is the reply's content already decoded,
   * `fileOpened` whether opening the cache file for writing succeeded, `files`
   * the paths that exist before.
   */
  function OnFinished(d: Downloader, cacheDir: string, md5: string -> Digest, error: NetworkError,
                      body: string, fileOpened: bool, files: set<string>): (c: Completion)
    ensures c.event.error == error && c.event.url == d.url
    ensures d.cache ==> c.event.filePathOrData == CacheFilePathOfUrl(cacheDir, md5, d.url)
    ensures !d.cache ==> c.event.filePathOrData == body
    ensures c.files == if d.cache && fileOpened then files + {CacheFilePathOfUrl(cacheDir, md5, d.url)} else files
  {
    if d.cache then
      var path := CacheFilePathOfUrl(cacheDir, md5, d.url);
      Completion(FinishedEvent(error, d.url, path), if fileOpened then files + {path} else files)
    else
      Completion(FinishedEvent(error, d.url, body), files)
  }

  /**
   * The cache path is reported whether or not the file could be written:
   * the event does not depend on `fileOpened`, and a cached transfer always
   * reports a path inside the cache directory.
   */
  lemma OnFinishedReportsPathEvenIfWriteFails(d: Downloader, cacheDir: string, md5: string -> Digest,
                                              error: NetworkError, body: string, files: set<string>)
    requires d.cache
    ensures OnFinished(d, cacheDir, md5, error, body, true, files).event
         == OnFinished(d, cacheDir, md5, error, body, false, files).event
    ensures cacheDir <= OnFinished(d, cacheDir, md5, error, body, false, files).event.filePathOrData
    ensures OnFinished(d, cacheDir, md5, error, body, false, files).files == files
  {
  }
}
