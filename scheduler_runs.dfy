/**
 * Properties of whole sequences of scheduler operations: the bound on
 * transfers in flight holds throughout and never goes down, and queued
 * requests are started strictly in arrival order as slots free up.
 */
module SchedulerRuns {
  import opened Hex
  import opened Requests
  import opened Downloaders
  import opened Scheduler

  /** One call into the scheduler after init. */
  datatype Op =
    | GetFilePath(url: string, downloadIfNoExist: bool, receiver: ReceiverId, member: Member, files: set<string>)
    | Download(url: string, receiver: ReceiverId, member: Member, cache: bool)
    | Finished(url: string)
    | Remove(url: string)
    | Raise(n: int)

  function Step(s: State, md5: string -> Digest, op: Op): (t: State)
    ensures t.maxConcurrency >= s.maxConcurrency
  {
    match op
    case GetFilePath(url, download, receiver, member, files) =>
      GetFilePathByUrl(s, files, md5, url, download, receiver, member).state
    case Download(url, receiver, member, cache) => DownloadFile(s, url, receiver, member, cache)
    case Finished(url) => OnDownloaderFinished(s, url)
    case Remove(url) => RemoveDownload(s, url).state
    case Raise(n) => SetMaxConcurrency(s, n)
  }

  function Run(s: State, md5: string -> Digest, ops: seq<Op>): State
    decreases |ops|
  {
    if ops == [] then s else Run(Step(s, md5, ops[0]), md5, ops[1..])
  }

  lemma StepKeepsInv(s: State, md5: string -> Digest, op: Op)
    requires Inv(s)
    ensures Inv(Step(s, md5, op))
  {
    match op
    case GetFilePath(url, download, receiver, member, files) =>
      GetFilePathByUrlDecision(s, files, md5, url, download, receiver, member);
    case Download(url, receiver, member, cache) =>
    case Finished(url) =>
      OnDownloaderFinishedServesHead(s, url);
    case Remove(url) =>
      RemoveDownloadRemovesFirstMatch(s, url);
    case Raise(n) =>
  }

  /**
   * After any sequence of operations the map of transfers in flight is
   * still within the bound, and the bound is at least what it was.
   */
  lemma {:induction false} RunKeepsInvAndBound(s: State, md5: string -> Digest, ops: seq<Op>)
    requires Inv(s)
    ensures Inv(Run(s, md5, ops))
    ensures Run(s, md5, ops).maxConcurrency >= s.maxConcurrency
    decreases |ops|
  {
    if ops != [] {
      StepKeepsInv(s, md5, ops[0]);
      RunKeepsInvAndBound(Step(s, md5, ops[0]), md5, ops[1..]);
    }
  }

  /** The urls of a list of requests, in order. */
  function UrlsOf(ps: seq<PendingRequest>): (us: seq<string>)
    ensures |us| == |ps|
    ensures forall i :: 0 <= i < |ps| ==> us[i] == ps[i].url
  {
    if ps == [] then [] else [ps[0].url] + UrlsOf(ps[1..])
  }

  /** Completions of the given urls, one after another. */
  function Drain(s: State, urls: seq<string>): State
    decreases |urls|
  {
    if urls == [] then s else Drain(OnDownloaderFinished(s, urls[0]), urls[1..])
  }

  /** Each url is in flight at the moment its completion arrives. */
  predicate EachInFlight(s: State, urls: seq<string>)
    decreases |urls|
  {
    urls == [] || (urls[0] in s.downloading && EachInFlight(OnDownloaderFinished(s, urls[0]), urls[1..]))
  }

  /**
   * FIFO service: when k transfers in flight finish one at a time, the
   * first k queued requests (or all of them, if fewer) are fetched in the
   * order they were queued, and exactly they leave the queue.
   */
  lemma {:induction false} DrainServesQueueInOrder(s: State, urls: seq<string>)
    requires Inv(s) && EachInFlight(s, urls)
    ensures var k := if |urls| < |s.pending| then |urls| else |s.pending|;
      var t := Drain(s, urls);
      && t.pending == s.pending[k..]
      && t.fetched == s.fetched + UrlsOf(s.pending[..k])
      && Inv(t)
    decreases |urls|
  {
    if urls == [] {
      assert s.pending[..0] == [] && UrlsOf([]) == [];
    } else {
      var s1 := OnDownloaderFinished(s, urls[0]);
      var rest := urls[1..];
      DrainFirst(s, urls);
      FinishedInFlightPromotesHead(s, urls[0]);
      DrainServesQueueInOrder(s1, rest);
      var t := Drain(s1, rest);
      assert |rest| == |urls| - 1;
      ServedWindowShifts(s.pending, s.fetched, s1.pending, s1.fetched, t.pending, t.fetched, |urls|);
    }
  }

  /** One completion, then the rest of the run. */
  lemma DrainFirst(s: State, urls: seq<string>)
    requires urls != [] && EachInFlight(s, urls)
    ensures urls[0] in s.downloading
    ensures EachInFlight(OnDownloaderFinished(s, urls[0]), urls[1..])
    ensures Drain(s, urls) == Drain(OnDownloaderFinished(s, urls[0]), urls[1..])
  {
  }

  /**
   * One completion served the head (if any); the rest of the run served a
   * window of what remained. Together they served the window one longer.
   */
  lemma ServedWindowShifts(p: seq<PendingRequest>, f: seq<string>, p1: seq<PendingRequest>, f1: seq<string>,
                           tp: seq<PendingRequest>, tf: seq<string>, n: nat)
    requires n >= 1
    requires p1 == (if p == [] then [] else p[1..])
    requires f1 == f + (if p == [] then [] else [p[0].url])
    requires var k1 := if n - 1 < |p1| then n - 1 else |p1|;
      tp == p1[k1..] && tf == f1 + UrlsOf(p1[..k1])
    ensures var k := if n < |p| then n else |p|;
      tp == p[k..] && tf == f + UrlsOf(p[..k])
  {
    var k := if n < |p| then n else |p|;
    if p == [] {
      assert p[..k] == [] && p1[..0] == [];
    } else {
      ServedHeadThenWindow(p, f, k);
    }
  }

  /**
   * Serving the head and then the next k - 1 requests of the rest is
   * serving the first k requests: the same requests remain, and the same
   * urls are fetched in the same order.
   */
  lemma ServedHeadThenWindow(p: seq<PendingRequest>, f: seq<string>, k: nat)
    requires 1 <= k <= |p|
    ensures p[1..][k - 1..] == p[k..]
    ensures (f + [p[0].url]) + UrlsOf(p[1..][..k - 1]) == f + UrlsOf(p[..k])
  {
    assert p[..k][1..] == p[1..][..k - 1];
  }

  /**
   * The worked example, first half: bound 2 and nothing cached; lookups of
   * three different urls start the first two and queue the third.
   */
  lemma ThreeRequestsTwoSlots(md5: string -> Digest, dir: string, a: string, b: string, c: string,
                              r: ReceiverId, m: Member)
    requires a != b && a != c && b != c
    ensures var s0 := Init(Start(), dir, 2);
      var s1 := GetFilePathByUrl(s0, {}, md5, a, true, r, m).state;
      var s2 := GetFilePathByUrl(s1, {}, md5, b, true, r, m).state;
      var s3 := GetFilePathByUrl(s2, {}, md5, c, true, r, m).state;
      && s3.downloading.Keys == {a, b} && s3.pending == [PendingRequest(c, r, m, true)]
      && s3.fetched == [a, b] && s3.maxConcurrency == 2
  {
    var s0 := Init(Start(), dir, 2);
    var s1 := GetFilePathByUrl(s0, {}, md5, a, true, r, m).state;
    var s2 := GetFilePathByUrl(s1, {}, md5, b, true, r, m).state;
    NothingCachedNothingQueued(s0, md5, a, r, m);
    NothingCachedNothingQueued(s1, md5, b, r, m);
    NothingCachedNothingQueued(s2, md5, c, r, m);
  }

  /**
   * A lookup with nothing cached, the url not in flight and an empty queue
   * starts the url when there is room and queues it otherwise.
   */
  lemma NothingCachedNothingQueued(s: State, md5: string -> Digest, url: string, r: ReceiverId, m: Member)
    requires url !in s.downloading && s.pending == []
    ensures var t := GetFilePathByUrl(s, {}, md5, url, true, r, m).state;
      && t.maxConcurrency == s.maxConcurrency
      && (|s.downloading| < s.maxConcurrency ==>
            && t.downloading.Keys == s.downloading.Keys + {url} && |t.downloading| == |s.downloading| + 1
            && t.pending == [] && t.fetched == s.fetched + [url])
      && (|s.downloading| >= s.maxConcurrency ==>
            t.downloading == s.downloading && t.pending == [PendingRequest(url, r, m, true)] && t.fetched == s.fetched)
  {
    var t := GetFilePathByUrl(s, {}, md5, url, true, r, m).state;
    assert t == DownloadFile(s, url, r, m, true);
    if |s.downloading| < s.maxConcurrency {
      assert t.downloading.Keys == s.downloading.Keys + {url};
      assert |t.downloading.Keys| == |s.downloading.Keys| + 1;
    }
  }

  /**
   * The worked example, second half: when the first url finishes, the
   * queued third one starts, the second is still in flight and the first
   * is gone.
   */
  lemma ThenFirstFinishes(s: State, a: string, b: string, c: string, r: ReceiverId, m: Member)
    requires a != b && a != c && b != c
    requires s.downloading.Keys == {a, b} && s.pending == [PendingRequest(c, r, m, true)]
    requires s.fetched == [a, b] && s.maxConcurrency == 2
    ensures var t := OnDownloaderFinished(s, a);
      t.downloading.Keys == {b, c} && t.pending == [] && t.fetched == [a, b, c]
  {
    OnDownloaderFinishedServesHead(s, a);
    RemoveKeyCardinality(s.downloading, a);
    assert s.downloading.Keys - {a} + {c} == {b, c};
  }
}
