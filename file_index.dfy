/**
  The index of files already on disk, `get_files_dict` in both versions of `local.py`.
  The directory walks (`os.walk('downloads/')` and `os.walk('cache/')`) are parameters:
  the files they find, in the order they find them.

  - e621dl/local.py:115-126 keys the index by file name;
  - e621dl_lib/local.py:437-456 keys it by the post id read out of the file name, and
    raises when a name has no readable id (`None` here).

  Both walk the downloads first and then, when asked to, the cache, and a later file
  with the same key replaces an earlier one.
*/
module FileIndex {
  import opened Wrappers
  import opened PathNames

  /** One file found by a walk: the directory it is in, and its name. */
  datatype FoundFile = FoundFile(root: string, name: string)

  /** `'{}/{}'.format(root, file)`. */
  function FilePath(f: FoundFile): string
  {
    f.root + "/" + f.name
  }

  // ---------------------------------------------------------------------------
  // Specification: indexing files in walk order
  // ---------------------------------------------------------------------------

  /** `start` with the files `fs` added in order under `key`; `None` as soon as a
      file has no key (the source raises there). */
  function IndexFrom<K(==)>(start: map<K, string>, fs: seq<FoundFile>, key: FoundFile -> Option<K>): Option<map<K, string>>
    decreases |fs|
  {
    if fs == [] then Some(start)
    else
      var last := fs[|fs| - 1];
      match IndexFrom(start, fs[..|fs| - 1], key)
      case None => None
      case Some(m) =>
        match key(last)
        case None => None
        case Some(k) => Some(m[k := FilePath(last)])
  }

  /** The downloads, then the cache when `withCache` holds, each under its own key. */
  function IndexWalks<K(==)>(downloads: seq<FoundFile>, downloadKey: FoundFile -> Option<K>,
                         cache: seq<FoundFile>, cacheKey: FoundFile -> Option<K>,
                         withCache: bool): Option<map<K, string>>
  {
    match IndexFrom(map[], downloads, downloadKey)
    case None => None
    case Some(m) => if withCache then IndexFrom(m, cache, cacheKey) else Some(m)
  }

  /** The position of the last file in `fs` filed under `k`, if any. */
  function LastWith<K(==)>(fs: seq<FoundFile>, key: FoundFile -> Option<K>, k: K): (r: Option<nat>)
    ensures r.Some? ==> r.value < |fs| && key(fs[r.value]) == Some(k)
    ensures r.Some? ==> forall i :: r.value < i < |fs| ==> key(fs[i]) != Some(k)
    ensures r.None? ==> forall i :: 0 <= i < |fs| ==> key(fs[i]) != Some(k)
    decreases |fs|
  {
    if fs == [] then None
    else if key(fs[|fs| - 1]) == Some(k) then Some(|fs| - 1)
    else LastWith(fs[..|fs| - 1], key, k)
  }

  /** Indexing fails exactly when some file has no key. */
  lemma {:induction false} IndexFromFails<K>(start: map<K, string>, fs: seq<FoundFile>, key: FoundFile -> Option<K>)
    ensures IndexFrom(start, fs, key).None? <==> exists i :: 0 <= i < |fs| && key(fs[i]).None?
    decreases |fs|
  {
    if fs != [] {
      var init := fs[..|fs| - 1];
      IndexFromFails(start, init, key);
      if exists i :: 0 <= i < |init| && key(init[i]).None? {
        var i :| 0 <= i < |init| && key(init[i]).None?;
        assert key(fs[i]).None?;
      }
    }
  }

  /** Every key of the index is a key of `start` or of some file, and it leads to the
      last file filed under it, or to `start`'s entry when no file is. */
  lemma {:induction false} IndexFromLookup<K>(start: map<K, string>, fs: seq<FoundFile>, key: FoundFile -> Option<K>, m: map<K, string>, k: K)
    requires IndexFrom(start, fs, key) == Some(m)
    ensures k in m <==> k in start || LastWith(fs, key, k).Some?
    ensures LastWith(fs, key, k).Some? ==> m[k] == FilePath(fs[LastWith(fs, key, k).value])
    ensures LastWith(fs, key, k).None? && k in start ==> m[k] == start[k]
    decreases |fs|
  {
    if fs != [] {
      var init := fs[..|fs| - 1];
      var m0 := IndexFrom(start, init, key).value;
      IndexFromLookup(start, init, key, m0, k);
    }
  }

  // ---------------------------------------------------------------------------
  // e621dl/local.py: keyed by file name
  // ---------------------------------------------------------------------------

  function NameKey(f: FoundFile): Option<string>
  {
    Some(f.name)
  }

  /** A file name is always a key: the name-keyed index never fails. */
  lemma NameIndexTotal(start: map<string, string>, fs: seq<FoundFile>)
    ensures IndexFrom(start, fs, NameKey).Some?
  {
    IndexFromFails(start, fs, NameKey);
  }

  /** `get_files_dict(cachefunc)` of e621dl/local.py, with `cacheTruthy` the truth
      value of `cachefunc`. */
  method GetFilesDictByName(downloads: seq<FoundFile>, cache: seq<FoundFile>, cacheTruthy: bool)
    returns (files: map<string, string>)
    ensures IndexWalks(downloads, NameKey, cache, NameKey, cacheTruthy) == Some(files)
  {
    files := map[];
    var i := 0;
    while i < |downloads|
      invariant 0 <= i <= |downloads|
      invariant IndexFrom(map[], downloads[..i], NameKey) == Some(files)
    {
      var f := downloads[i];
      assert downloads[..i + 1][..i] == downloads[..i];
      files := files[f.name := FilePath(f)];
      i := i + 1;
    }
    assert downloads[..i] == downloads;
    if cacheTruthy {
      var start := files;
      var j := 0;
      while j < |cache|
        invariant 0 <= j <= |cache|
        invariant IndexFrom(start, cache[..j], NameKey) == Some(files)
      {
        var f := cache[j];
        assert cache[..j + 1][..j] == cache[..j];
        files := files[f.name := FilePath(f)];
        j := j + 1;
      }
      assert cache[..j] == cache;
    }
  }

  /** With the cache merged, a name found in the cache leads to the last cache file of
      that name, whatever the downloads hold. */
  lemma CacheOverwritesDownloads(downloads: seq<FoundFile>, cache: seq<FoundFile>, name: string, i: nat)
    requires i < |cache| && cache[i].name == name
    ensures var r := IndexWalks(downloads, NameKey, cache, NameKey, true);
      r.Some? && name in r.value
      && exists j :: i <= j < |cache| && cache[j].name == name && r.value[name] == FilePath(cache[j])
  {
    NameIndexTotal(map[], downloads);
    var m := IndexFrom(map[], downloads, NameKey).value;
    NameIndexTotal(m, cache);
    var r := IndexFrom(m, cache, NameKey).value;
    IndexFromLookup(m, cache, NameKey, r, name);
    assert NameKey(cache[i]) == Some(name);
  }

  /** Some file of `fs` has the name. */
  predicate HasName(fs: seq<FoundFile>, name: string)
  {
    exists i :: 0 <= i < |fs| && fs[i].name == name
  }

  /** `path` is the one of the last file of `fs` with the name. */
  predicate LastPathOf(fs: seq<FoundFile>, name: string, path: string)
  {
    exists i :: 0 <= i < |fs| && fs[i].name == name && path == FilePath(fs[i])
      && forall j :: i < j < |fs| ==> fs[j].name != name
  }

  /** A name is in the index exactly when some walked file has it, and a name the cache
      does not hold (or an unmerged cache) leads to the last download of that name. */
  lemma NameIndexContents(downloads: seq<FoundFile>, cache: seq<FoundFile>, cacheTruthy: bool, name: string)
    ensures var r := IndexWalks(downloads, NameKey, cache, NameKey, cacheTruthy);
      && r.Some?
      && (name in r.value <==> HasName(downloads, name) || (cacheTruthy && HasName(cache, name)))
      && (name in r.value && !(cacheTruthy && HasName(cache, name)) ==> LastPathOf(downloads, name, r.value[name]))
  {
    NameIndexTotal(map[], downloads);
    var m := IndexFrom(map[], downloads, NameKey).value;
    IndexFromLookup(map[], downloads, NameKey, m, name);
    LastWithName(downloads, name);
    if cacheTruthy {
      NameIndexTotal(m, cache);
      var r := IndexFrom(m, cache, NameKey).value;
      IndexFromLookup(m, cache, NameKey, r, name);
      LastWithName(cache, name);
    }
  }

  /** `LastWith` under the name key finds a file exactly when one has the name. */
  lemma LastWithName(fs: seq<FoundFile>, name: string)
    ensures LastWith(fs, NameKey, name).Some? <==> HasName(fs, name)
  {
    if HasName(fs, name) {
      var i :| 0 <= i < |fs| && fs[i].name == name;
      assert NameKey(fs[i]) == Some(name);
    }
  }

  // ---------------------------------------------------------------------------
  // e621dl_lib/local.py: keyed by post id
  // ---------------------------------------------------------------------------

  /** The id of a downloaded file: `FileId`, which skips a trailing `.request`. */
  function DownloadIdKey(f: FoundFile): Option<int>
  {
    FileId(f.name)
  }

  /** The id of a cached file: always the second-to-last dot-separated piece. */
  function CacheIdKey(f: FoundFile): Option<int>
  {
    var parts := Split(f.name, '.');
    if |parts| >= 2 then ParseInt(parts[|parts| - 2]) else None
  }

  /** `get_files_dict(have_cache)` of e621dl_lib/local.py; `None` where a file name has
      no readable id and the source raises. */
  method GetFilesDictById(downloads: seq<FoundFile>, cache: seq<FoundFile>, haveCache: bool)
    returns (r: Option<map<int, string>>)
    ensures r == IndexWalks(downloads, DownloadIdKey, cache, CacheIdKey, haveCache)
  {
    var files: map<int, string> := map[];
    var i := 0;
    while i < |downloads|
      invariant 0 <= i <= |downloads|
      invariant IndexFrom(map[], downloads[..i], DownloadIdKey) == Some(files)
    {
      var f := downloads[i];
      assert downloads[..i + 1][..i] == downloads[..i];
      var id := DownloadIdKey(f);
      if id.None? {
        IndexFromNone(map[], downloads, DownloadIdKey, i);
        return None;
      }
      files := files[id.value := FilePath(f)];
      i := i + 1;
    }
    assert downloads[..i] == downloads;
    if haveCache {
      var start := files;
      var j := 0;
      while j < |cache|
        invariant 0 <= j <= |cache|
        invariant IndexFrom(start, cache[..j], CacheIdKey) == Some(files)
      {
        var f := cache[j];
        assert cache[..j + 1][..j] == cache[..j];
        var id := CacheIdKey(f);
        if id.None? {
          IndexFromNone(start, cache, CacheIdKey, j);
          return None;
        }
        files := files[id.value := FilePath(f)];
        j := j + 1;
      }
      assert cache[..j] == cache;
    }
    r := Some(files);
  }

  /** One file without a key makes the whole index fail. */
  lemma IndexFromNone<K>(start: map<K, string>, fs: seq<FoundFile>, key: FoundFile -> Option<K>, i: nat)
    requires i < |fs| && key(fs[i]).None?
    ensures IndexFrom(start, fs, key).None?
  {
    IndexFromFails(start, fs, key);
  }

  /** A file the downloader saved as `[prefix.]id.ext`, finished or partial, is indexed
      under its post id, unless a later download or a merged cache file claims the id. */
  lemma SavedFileIndexed(downloads: seq<FoundFile>, cache: seq<FoundFile>, haveCache: bool,
                         i: nat, prefix: string, id: nat, ext: string, partial: bool)
    requires i < |downloads|
    requires '.' !in ext && ext != PartialExt
    requires var base := (if prefix == [] then [] else prefix + ".") + NatToString(id) + "." + ext;
      downloads[i].name == (if partial then base + "." + PartialExt else base)
    requires IndexWalks(downloads, DownloadIdKey, cache, CacheIdKey, haveCache).Some?
    ensures var m := IndexWalks(downloads, DownloadIdKey, cache, CacheIdKey, haveCache).value;
      id in m
  {
    FileIdRoundTrip(prefix, id, ext, partial);
    assert DownloadIdKey(downloads[i]) == Some(id as int);
    var m0 := IndexFrom(map[], downloads, DownloadIdKey).value;
    IndexFromLookup(map[], downloads, DownloadIdKey, m0, id);
    if haveCache {
      var m := IndexFrom(m0, cache, CacheIdKey).value;
      IndexFromLookup(m0, cache, CacheIdKey, m, id);
    }
  }
}
