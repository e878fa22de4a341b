/** The module-wide read cache `readCache` (index.js:16) and the three
    functions that use it: `clearCache` (index.js:30-32), `read`
    (index.js:108-127) and `readSync` (index.js:140-154). The file system is a
    map from path to raw contents, handed to each read; the cache counts the
    reads it makes of it. */
module FileCache {
  import opened JsValues
  import opened Normalizer

  /** The files on disk: path to raw (un-normalized) contents. A path the map
      lacks is one `fs.readFile` fails on. */
  type Disk = map<string, string>

  /** `options.cache`, read for its truthiness. */
  predicate CacheOn(options: Props)
    ensures "cache" !in options ==> !CacheOn(options)
    ensures "cache" in options && options["cache"] == Bool(true) ==> CacheOn(options)
  {
    Truthy(Get(options, "cache"))
  }

  /** `options.cache && str && typeof str === 'string'` with
      `str = readCache[filepath]`: caching is asked for and a non-empty string
      is stored for the path. An empty string is falsy, so a cached empty file
      counts as a miss. */
  predicate Hit(entries: map<string, string>, path: string, cacheOn: bool)
    ensures Hit(entries, path, cacheOn) ==> cacheOn && path in entries
    ensures path in entries && entries[path] == "" ==> !Hit(entries, path, cacheOn)
  {
    cacheOn && path in entries && entries[path] != ""
  }

  /** `fs.readFile(filepath, 'utf8')` followed by `normalize`: the
      normalized contents, or the read error for a path the disk lacks. */
  function FileRead(path: string, disk: Disk): (r: Result<string>)
    ensures r.Ok? <==> path in disk
    ensures r.Ok? ==> r.value == Normalize(disk[path])
    ensures r.Err? ==> r.error == NoSuchFile(path)
  {
    if path in disk then Ok(Normalize(disk[path])) else Err(NoSuchFile(path))
  }

  /** The cache after a file read: with caching on, a successful read is
      stored under exactly its path; nothing else changes. */
  function StoreRead(entries: map<string, string>, path: string, cacheOn: bool, disk: Disk): (r: map<string, string>)
    ensures forall p :: p != path ==> (p in r <==> p in entries)
    ensures forall p :: p != path && p in entries ==> r[p] == entries[p]
    ensures !cacheOn || path !in disk ==> r == entries
    ensures cacheOn && path in disk ==> path in r && r[path] == FileRead(path, disk).value
  {
    if cacheOn && path in disk then entries[path := Normalize(disk[path])] else entries
  }

  /** What `read`/`readSync` deliver: the cached string on a hit, otherwise
      the result of reading the file. */
  function CachedRead(entries: map<string, string>, path: string, cacheOn: bool, disk: Disk): (r: Result<string>)
    ensures Hit(entries, path, cacheOn) ==> r == Ok(entries[path])
    ensures !Hit(entries, path, cacheOn) ==> r == FileRead(path, disk)
  {
    if Hit(entries, path, cacheOn) then Ok(entries[path]) else FileRead(path, disk)
  }

  /** The cache after `read`/`readSync`: a hit leaves it alone, a miss stores
      what it read when caching is on. */
  function CacheAfterRead(entries: map<string, string>, path: string, cacheOn: bool, disk: Disk): (r: map<string, string>)
    ensures Hit(entries, path, cacheOn) ==> r == entries
    ensures !Hit(entries, path, cacheOn) ==> r == StoreRead(entries, path, cacheOn, disk)
  {
    if Hit(entries, path, cacheOn) then entries else StoreRead(entries, path, cacheOn, disk)
  }

  /** How many times `read`/`readSync` touch the disk: once, unless they hit. */
  function ReadCost(entries: map<string, string>, path: string, cacheOn: bool): (n: nat)
    ensures n <= 1
    ensures n == 0 <==> Hit(entries, path, cacheOn)
  {
    if Hit(entries, path, cacheOn) then 0 else 1
  }

  class ReadCache {
    /** `readCache`: path to normalized contents. */
    var entries: map<string, string>
    /** How many times the disk has been read. */
    var fileReads: nat

    constructor ()
      ensures entries == map[] && fileReads == 0
    {
      entries := map[];
      fileReads := 0;
    }

    /** `clearCache()`: drop every entry. */
    method Clear()
      modifies this
      ensures entries == map[]
      ensures fileReads == old(fileReads)
    {
      entries := map[];
    }

    /** `readSync(filepath, options)`; a read failure, which `fs.readFileSync`
        throws, is returned as `Err`. */
    method ReadSync(filepath: string, options: Props, disk: Disk) returns (r: Result<string>)
      modifies this
      ensures r == CachedRead(old(entries), filepath, CacheOn(options), disk)
      ensures entries == CacheAfterRead(old(entries), filepath, CacheOn(options), disk)
      ensures fileReads == old(fileReads) + ReadCost(old(entries), filepath, CacheOn(options))
    {
      var cacheOn := CacheOn(options);
      if cacheOn && filepath in entries && entries[filepath] != "" {
        return Ok(entries[filepath]);
      }
      fileReads := fileReads + 1;
      if filepath !in disk {
        return Err(NoSuchFile(filepath));
      }
      var str := Normalize(disk[filepath]);
      if cacheOn {
        entries := entries[filepath := str];
      }
      r := Ok(str);
    }

    /** `read(filepath, options, cb)`: the `(err, str)` the callback receives
        is returned as `Err(err)` or `Ok(str)`. A hit calls back at once; a
        miss calls back when `fs.readFile` completes (`ReadDone`). */
    method Read(filepath: string, options: Props, disk: Disk) returns (r: Result<string>)
      modifies this
      ensures r == CachedRead(old(entries), filepath, CacheOn(options), disk)
      ensures entries == CacheAfterRead(old(entries), filepath, CacheOn(options), disk)
      ensures fileReads == old(fileReads) + ReadCost(old(entries), filepath, CacheOn(options))
    {
      var str := if filepath in entries then entries[filepath] else "";
      if CacheOn(options) && str != "" {
        return Ok(str);
      }
      r := ReadDone(filepath, options, disk);
    }

    /** The completion of `read`'s `fs.readFile`: a read error is passed on
        and stores nothing; otherwise the contents are normalized and, when
        caching is on, stored under the path. */
    method ReadDone(filepath: string, options: Props, disk: Disk) returns (r: Result<string>)
      modifies this
      ensures r == FileRead(filepath, disk)
      ensures entries == StoreRead(old(entries), filepath, CacheOn(options), disk)
      ensures fileReads == old(fileReads) + 1
    {
      fileReads := fileReads + 1;
      if filepath !in disk {
        r := Err(NoSuchFile(filepath));
        return;
      }
      var str := Normalize(disk[filepath]);
      if CacheOn(options) {
        entries := entries[filepath := str];
      }
      r := Ok(str);
    }
  }

  /** A hit serves the stored string without reading the disk and leaves the
      cache as it was, even when the file has changed since it was stored. */
  lemma HitServesCached(entries: map<string, string>, path: string, disk: Disk)
    requires Hit(entries, path, true)
    ensures CachedRead(entries, path, true, disk) == Ok(entries[path])
    ensures CacheAfterRead(entries, path, true, disk) == entries
    ensures ReadCost(entries, path, true) == 0
  {
  }

  /** With caching off the cache is neither consulted nor changed: the file
      is read and normalized every time. */
  lemma CacheOffBypasses(entries: map<string, string>, path: string, disk: Disk)
    ensures CachedRead(entries, path, false, disk)
            == (if path in disk then Ok(Normalize(disk[path])) else Err(NoSuchFile(path)))
    ensures CacheAfterRead(entries, path, false, disk) == entries
    ensures ReadCost(entries, path, false) == 1
  {
  }

  /** Two cached reads of the same non-empty file: the second is a hit,
      reads nothing, and returns what the first returned. */
  lemma CachedReadTwice(entries: map<string, string>, path: string, disk: Disk)
    requires path in disk && Normalize(disk[path]) != ""
    ensures var after := CacheAfterRead(entries, path, true, disk);
            Hit(after, path, true) &&
            CachedRead(after, path, true, disk) == CachedRead(entries, path, true, disk) &&
            CacheAfterRead(after, path, true, disk) == after
  {
  }

  /** A file that normalizes to the empty string is never served from the
      cache: every cached read of it reads the disk again. */
  lemma EmptyFileAlwaysRead(entries: map<string, string>, path: string, disk: Disk)
    requires path in disk && Normalize(disk[path]) == ""
    requires !Hit(entries, path, true)
    ensures !Hit(CacheAfterRead(entries, path, true, disk), path, true)
    ensures ReadCost(CacheAfterRead(entries, path, true, disk), path, true) == 1
  {
  }

  /** After `clearCache()` no path hits, so the next cached read of any path
      reads the disk. */
  lemma ClearedCacheMisses(path: string, cacheOn: bool)
    ensures !Hit(map[], path, cacheOn)
    ensures ReadCost(map[], path, cacheOn) == 1
  {
  }
}
