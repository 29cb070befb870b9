/**
 * The FileCache object: the fields the C++ methods update in place and one
 * method per C++ method. Each method is proved to change the fields exactly
 * as the matching function of module Scheduler says, so every property
 * proved there holds of the object.
 */
module Cache {
  import opened Hex
  import opened CachePath
  import opened Requests
  import opened Downloaders
  import S = Scheduler

  class FileCache {
    var downloading: map<string, Downloader>
    var pending: seq<PendingRequest>
    var maxConcurrency: int
    var cacheDir: string
    /** The URLs handed to the network by Downloader::run, oldest first. */
    ghost var fetched: seq<string>
    /** The hashing primitive (MD5 of the URL's bytes). */
    const md5: string -> Digest

    ghost function Model(): S.State
      reads this
    {
      S.State(downloading, pending, maxConcurrency, cacheDir, fetched)
    }

    ghost predicate Valid()
      reads this
    {
      S.Inv(Model())
    }

    /** FileCache::FileCache, on the zeroed storage of the static singleton. */
    constructor (md5: string -> Digest)
      ensures Model() == S.Start() && Valid()
      ensures this.md5 == md5
    {
      downloading := map[];
      pending := [];
      maxConcurrency := 0;
      cacheDir := "";
      fetched := [];
      this.md5 := md5;
    }

    /** FileCache::init, with QThread::idealThreadCount passed in. */
    method Init(cacheDir: string, idealThreadCount: int)
      modifies this
      ensures Model() == S.Init(old(Model()), cacheDir, idealThreadCount)
      ensures maxConcurrency >= 2
      ensures old(downloading) == map[] ==> Valid()
    {
      this.cacheDir := cacheDir;
      maxConcurrency := idealThreadCount;
      maxConcurrency := S.Max(2, maxConcurrency);
    }

    /** FileCache::setMaxConcurrency. */
    method SetMaxConcurrency(maxCon: int)
      modifies this
      ensures Model() == S.SetMaxConcurrency(old(Model()), maxCon)
      ensures maxConcurrency >= old(maxConcurrency) && maxConcurrency >= maxCon
      ensures old(Valid()) ==> Valid()
    {
      maxConcurrency := S.Max(maxConcurrency, maxCon);
    }

    /** FileCache::removeDownload: a scan by index, removing the first match. */
    method RemoveDownload(url: string) returns (found: bool)
      modifies this
      ensures S.Reply(Model(), found) == S.RemoveDownload(old(Model()), url)
      ensures found <==> exists i :: 0 <= i < |old(pending)| && old(pending)[i].url == url
      ensures downloading == old(downloading) && |pending| >= |old(pending)| - 1
      ensures old(Valid()) ==> Valid()
    {
      S.RemoveDownloadRemovesFirstMatch(Model(), url);
      var i := 0;
      while i < |pending|
        invariant 0 <= i <= |pending|
        invariant Model() == old(Model())
        invariant forall j :: 0 <= j < i ==> pending[j].url != url
      {
        if pending[i].url == url {
          pending := RemoveAt(pending, i);
          return true;
        }
        i := i + 1;
      }
      return false;
    }

    /** FileCache::makeCacheFilePathByUrl. */
    function MakeCacheFilePathByUrl(url: string): (path: string)
      reads this
      ensures cacheDir <= path && |path| == |DirectoryPart(cacheDir)| + 32
      ensures path[|path| - 32..] == ToHex(md5(url))
    {
      CacheFilePathShape(cacheDir, md5(url));
      CacheFilePathOfUrl(cacheDir, md5, url)
    }

    /** FileCache::getFilePathByUrl, with the set of existing files passed in. */
    method GetFilePathByUrl(url: string, downloadIfNoExist: bool, receiver: ReceiverId, member: Member,
                            files: set<string>) returns (path: string)
      modifies this
      ensures S.Reply(Model(), path) == S.GetFilePathByUrl(old(Model()), files, md5, url, downloadIfNoExist, receiver, member)
      ensures path == "" || path == MakeCacheFilePathByUrl(url)
      ensures url in old(downloading) ==> fetched == old(fetched) && downloading.Keys == old(downloading).Keys
      ensures old(Valid()) ==> Valid()
    {
      S.GetFilePathByUrlDecision(Model(), files, md5, url, downloadIfNoExist, receiver, member);
      var name := MakeCacheFilePathByUrl(url);
      if name in files {
        return name;
      }
      if url in downloading {
        downloading := downloading[url := Connect(downloading[url], Client(receiver, member))];
        return "";
      }
      if IndexOf(pending, PendingRequest(url, receiver, member, true)) != -1 {
        return "";
      }
      if downloadIfNoExist {
        DownloadFile(url, receiver, member, true);
      }
      return "";
    }

    /** FileCache::downloadFile. */
    method DownloadFile(url: string, receiver: ReceiverId, member: Member, cache: bool)
      modifies this
      ensures Model() == S.DownloadFile(old(Model()), url, receiver, member, cache)
      ensures old(|downloading|) < old(maxConcurrency) ==> url in downloading && pending == old(pending)
      ensures old(|downloading|) >= old(maxConcurrency) ==>
                downloading == old(downloading) && pending == old(pending) + [PendingRequest(url, receiver, member, cache)]
      ensures old(Valid()) ==> Valid()
    {
      if |downloading| < maxConcurrency {
        var downloader := NewDownloader(url, cache);
        downloader := Connect(downloader, Client(receiver, member));
        downloader := Connect(downloader, Bookkeeping);
        downloading := downloading[url := downloader];
        fetched := fetched + [url];
      } else {
        pending := pending + [PendingRequest(url, receiver, member, cache)];
      }
    }

    /** FileCache::onDownloaderFinished, with the finished Downloader's url passed in. */
    method OnDownloaderFinished(url: string)
      modifies this
      ensures Model() == S.OnDownloaderFinished(old(Model()), url)
      ensures old(Valid()) && url in old(downloading) && old(pending) != [] ==>
                pending == old(pending)[1..] && fetched == old(fetched) + [old(pending)[0].url]
      ensures old(Valid()) ==> Valid()
    {
      S.OnDownloaderFinishedServesHead(Model(), url);
      downloading := downloading - {url};
      if pending != [] {
        var head := pending[0];
        DownloadFile(head.url, head.receiver, head.member, head.cache);
        pending := pending[1..];
      }
    }
  }
}
