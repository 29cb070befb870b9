/**
 * FileCache::makeCacheFilePathByUrl: the cache directory, a backslash
 * appended only when the directory does not already end in one, then the
 * lower-case hex MD5 digest of the URL.
 */
module CachePath {
  import opened Hex

  /** The separator is a literal backslash on every platform. */
  const Separator: char := '\\'

  predicate EndsWithSeparator(s: string) {
    |s| > 0 && s[|s| - 1] == Separator
  }

  /** The directory part of every cache path built from `dir`. */
  function DirectoryPart(dir: string): (r: string)
    ensures EndsWithSeparator(r)
    ensures dir <= r
    ensures |r| == if EndsWithSeparator(dir) then |dir| else |dir| + 1
  {
    if EndsWithSeparator(dir) then dir else dir + [Separator]
  }

  /** The cache file path for the URL whose digest is `digest`. */
  function CacheFilePath(dir: string, digest: Digest): (path: string)
    ensures dir <= path
    ensures |path| == |DirectoryPart(dir)| + 32
    ensures path[|path| - 33] == Separator
    ensures AllLowerHex(path[|path| - 32..])
  {
    var hex := ToHex(digest);
    assert (DirectoryPart(dir) + hex)[|DirectoryPart(dir)|..] == hex;
    DirectoryPart(dir) + hex
  }

  /** The path of an URL, with the hashing primitive passed in. */
  function CacheFilePathOfUrl(dir: string, md5: string -> Digest, url: string): (path: string)
    ensures dir <= path && |path| == |DirectoryPart(dir)| + 32
  {
    CacheFilePath(dir, md5(url))
  }

  /** Splits a cache path back into its directory part and its digest. */
  function ParseCacheFilePath(path: string): (r: (string, seq<Byte>))
    requires |path| >= 32 && AllLowerHex(path[|path| - 32..])
    ensures |r.1| == 16
  {
    (path[..|path| - 32], FromHex(path[|path| - 32..]))
  }

  /** Parsing a built path gives back exactly what it was built from. */
  lemma ParseCacheFilePathOfCacheFilePath(dir: string, digest: Digest)
    ensures ParseCacheFilePath(CacheFilePath(dir, digest)) == (DirectoryPart(dir), digest)
  {
    var path := CacheFilePath(dir, digest);
    var d := DirectoryPart(dir);
    assert path[..|path| - 32] == d;
    assert path[|path| - 32..] == ToHex(digest);
    FromHexToHex(digest);
  }

  /** In one directory, two digests share a path only if they are equal. */
  lemma CacheFilePathInjective(dir: string, a: Digest, b: Digest)
    requires CacheFilePath(dir, a) == CacheFilePath(dir, b)
    ensures a == b
  {
    ParseCacheFilePathOfCacheFilePath(dir, a);
    ParseCacheFilePathOfCacheFilePath(dir, b);
  }

  /**
   * The exact shape of a path: `dir`, then a backslash only when `dir` does
   * not end in one, then the 32 hex characters of the digest.
   */
  lemma CacheFilePathShape(dir: string, digest: Digest)
    ensures var path := CacheFilePath(dir, digest);
      && path[..|dir|] == dir
      && (EndsWithSeparator(dir) ==> path == dir + ToHex(digest))
      && (!EndsWithSeparator(dir) ==> path == dir + [Separator] + ToHex(digest))
  {
  }

  /**
   * Building the path never introduces a doubled separator: every pair of
   * adjacent backslashes lies wholly inside the directory given by the caller.
   */
  lemma {:induction false} CacheFilePathNoDoubledSeparator(dir: string, digest: Digest)
    ensures var path := CacheFilePath(dir, digest);
      forall i :: 0 <= i < |path| - 1 && path[i] == Separator && path[i + 1] == Separator ==> i + 1 < |dir|
  {
    var path := CacheFilePath(dir, digest);
    var d := DirectoryPart(dir);
    var hex := ToHex(digest);
    assert path == d + hex;
    forall j | |d| <= j < |path| ensures path[j] != Separator {
      assert path[j] == hex[j - |d|];
    }
  }
}
