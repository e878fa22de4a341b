/** The adapter that `fromStringParser(name)` (index.js:160-202) builds for
    each backend, and the capabilities of the four backends index.js wires up
    (index.js:208-327). A backend's own parsers are opaque functions here;
    the adapter only probes which of them exist and calls them. */
module Dispatcher {
  import opened JsValues
  import opened Objects
  import opened FileCache

  /** Which of the four capability members a backend object carries
      (`'parse' in exports[name]`, and so on). */
  datatype Caps = Caps(hasParse: bool, hasParseFile: bool, hasParseSync: bool, hasParseFileSync: bool)

  /** remarkable, marked and markdownjs set only `parseSync`
      (index.js:214, 234, 253); matter sets all four (index.js:273, 290, 303, 320). */
  const RemarkableCaps: Caps := Caps(false, false, true, false)
  const MarkedCaps: Caps := Caps(false, false, true, false)
  const MarkdownjsCaps: Caps := Caps(false, false, true, false)
  const MatterCaps: Caps := Caps(true, true, true, true)

  predicate ParseSyncOnly(caps: Caps) {
    caps == Caps(false, false, true, false)
  }

  /** A wrapped backend: its capabilities and the results its text parsers
      produce. `parse` is the result `parse(str, options, cb)` hands to `cb`
      (matter's calls `cb` exactly once with it and returns nothing); the
      file parsers are never called by the adapter, only probed. */
  datatype Backend = Backend(
    caps: Caps,
    parse: (string, Props) -> Result<Value>,
    parseSync: (string, Props) -> Result<Value>)

  /** The arguments after `filepath` end with a function: `typeof last ===
      'function'` for `last = arguments[arguments.length - 1]`. With no
      further argument the last one is `filepath`, a string. */
  predicate LastIsFunction(rest: seq<Value>)
    ensures rest == [] ==> !LastIsFunction(rest)
    ensures |rest| > 0 && !rest[|rest| - 1].Func? ==> !LastIsFunction(rest)
  {
    |rest| > 0 && rest[|rest| - 1].Func?
  }

  /** The `options` parameter: the second argument, `undefined` if absent. */
  function CallerOptions(rest: seq<Value>): (r: Value)
    ensures rest == [] ==> r == Undefined
  {
    if |rest| > 0 then rest[0] else Undefined
  }

  /** The options the backend receives: `extend({}, options)` with
      `filename` then set to `filepath`, whether `filepath` names a file or
      is raw text. */
  function BackendOptions(options: Value, filepath: string): (r: Props)
    ensures "filename" in r && r["filename"] == Str(filepath)
    ensures forall k :: k != "filename" ==> (k in r <==> k in OwnProps(options))
    ensures forall k :: k != "filename" && k in r ==> r[k] == OwnProps(options)[k]
  {
    MergeAllSingle(map[], options);
    MergeAll(map[], [options])["filename" := Str(filepath)]
  }

  /** What the synchronous part of the adapter does (index.js:191-200). */
  datatype SyncRoute =
    | CallParseSync          // return parseSync(filepath, options)
    | ReadSyncThenParseSync  // readSync(filepath, options), then the absent parseSync is called
    | ThrowCouldNotParse     // throw new Error('Could not parse:', filepath)

  /** The path the adapter takes. `CallParse` returns `parse(filepath,
      options, cb)`. Otherwise the synchronous part runs; `readThenParse`
      says that the `parseFile` branch started `read`-then-`parse` first,
      which has no `return` and so falls through. */
  datatype Route =
    | CallParse
    | FallThrough(readThenParse: bool, sync: SyncRoute)

  /** The branch order of index.js:174-200. A callback is used only when
      one was passed, `parse` wins over everything, `parseFile` never stops
      the synchronous part, and `parseSync` wins over `parseFileSync`. */
  function SelectRoute(caps: Caps, lastIsFunction: bool): (r: Route)
    ensures r.CallParse? <==> lastIsFunction && caps.hasParse
    ensures r.FallThrough? ==> (r.readThenParse <==> lastIsFunction && caps.hasParseFile)
    ensures r.FallThrough? ==> (r.sync.CallParseSync? <==> caps.hasParseSync)
    ensures r.FallThrough? ==> (r.sync.ReadSyncThenParseSync? <==> !caps.hasParseSync && caps.hasParseFileSync)
  {
    if lastIsFunction && caps.hasParse then CallParse
    else
      var readThenParse := lastIsFunction && caps.hasParseFile;
      if caps.hasParseSync then FallThrough(readThenParse, CallParseSync)
      else if caps.hasParseFileSync then FallThrough(readThenParse, ReadSyncThenParseSync)
      else FallThrough(readThenParse, ThrowCouldNotParse)
  }

  /** `new Error('Could not parse:', filepath)`: the second argument of the
      `Error` constructor is not part of the message, so the path is lost. */
  const CouldNotParseMessage: string := "Could not parse:"

  /** How a call to the adapter ends for its caller. */
  datatype Completion = Returned(value: Value) | Threw(error: Error)

  function AsCompletion(r: Result<Value>): (c: Completion)
    ensures r.Ok? <==> c.Returned?
    ensures r.Ok? ==> c.value == r.value
    ensures r.Err? ==> c.error == r.error
  {
    match r
    case Ok(v) => Returned(v)
    case Err(e) => Threw(e)
  }

  /** Everything one adapter call produces: how it ends, the results passed
      to the caller's callback in order, and an exception thrown later, on
      the event loop, that nothing catches. */
  datatype Outcome = Outcome(completion: Completion, callbacks: seq<Result<Value>>, uncaught: Option<Error>)

  /** How the synchronous part ends, given the cache it starts from. The
      `parseFileSync` branch (index.js:195-198) is reached only when
      `parseSync` is absent, yet it calls `parseSync` on what `readSync`
      returned: unless `readSync` throws first, the call throws a TypeError.
      So only the plain `parseSync` route can return a value. */
  function SyncCompletion(backend: Backend, sync: SyncRoute, filepath: string, opts: Props,
                          entries: map<string, string>, disk: Disk): (c: Completion)
    ensures c.Returned? ==> sync.CallParseSync?
    ensures sync.CallParseSync? ==> c == AsCompletion(backend.parseSync(filepath, opts))
    ensures sync.ReadSyncThenParseSync? ==>
              c == Threw(if CachedRead(entries, filepath, CacheOn(opts), disk).Err?
                         then CachedRead(entries, filepath, CacheOn(opts), disk).error
                         else NotAFunction("parseSync"))
    ensures sync.ThrowCouldNotParse? ==> c == Threw(CouldNotParse(CouldNotParseMessage))
  {
    match sync
    case CallParseSync => AsCompletion(backend.parseSync(filepath, opts))
    case ReadSyncThenParseSync =>
      (match CachedRead(entries, filepath, CacheOn(opts), disk)
       case Err(e) => Threw(e)
       case Ok(_) => Threw(NotAFunction("parseSync")))
    case ThrowCouldNotParse => Threw(CouldNotParse(CouldNotParseMessage))
  }

  /** The cache after the synchronous part: only `readSync` touches it, and
      it stores before the TypeError that follows it. */
  function SyncEntries(sync: SyncRoute, filepath: string, opts: Props,
                       entries: map<string, string>, disk: Disk): (r: map<string, string>)
    ensures !sync.ReadSyncThenParseSync? ==> r == entries
    ensures forall p :: p != filepath ==> (p in r <==> p in entries)
    ensures forall p :: p != filepath && p in entries ==> r[p] == entries[p]
  {
    if sync.ReadSyncThenParseSync? then CacheAfterRead(entries, filepath, CacheOn(opts), disk)
    else entries
  }

  /** Disk reads made by the synchronous part. */
  function SyncCost(sync: SyncRoute, filepath: string, opts: Props, entries: map<string, string>): (n: nat)
    ensures n <= 1
    ensures n == 1 <==> sync.ReadSyncThenParseSync? && !Hit(entries, filepath, CacheOn(opts))
  {
    if sync.ReadSyncThenParseSync? then ReadCost(entries, filepath, CacheOn(opts)) else 0
  }

  /** One call `adapter(filepath, ...rest)` of the function
      `fromStringParser(name)` returns, for a backend `backend`. */
  method Invoke(backend: Backend, cache: ReadCache, disk: Disk, filepath: string, rest: seq<Value>)
    returns (out: Outcome)
    modifies cache
    ensures var opts := BackendOptions(CallerOptions(rest), filepath);
            var route := SelectRoute(backend.caps, LastIsFunction(rest));
            && (route.CallParse? ==>
                  && out == Outcome(Returned(Undefined), [backend.parse(filepath, opts)], None)
                  && cache.entries == old(cache.entries)
                  && cache.fileReads == old(cache.fileReads))
            && (route.FallThrough? && !route.readThenParse ==>
                  && out == Outcome(SyncCompletion(backend, route.sync, filepath, opts, old(cache.entries), disk), [], None)
                  && cache.entries == SyncEntries(route.sync, filepath, opts, old(cache.entries), disk)
                  && cache.fileReads == old(cache.fileReads) + SyncCost(route.sync, filepath, opts, old(cache.entries)))
            && (route.FallThrough? && route.readThenParse && Hit(old(cache.entries), filepath, CacheOn(opts)) ==>
                  && out == Outcome(Threw(NotAFunction("parse")), [], None)
                  && cache.entries == old(cache.entries)
                  && cache.fileReads == old(cache.fileReads))
            && (route.FallThrough? && route.readThenParse && !Hit(old(cache.entries), filepath, CacheOn(opts)) ==>
                  && out.completion == SyncCompletion(backend, route.sync, filepath, opts, old(cache.entries), disk)
                  && out.callbacks == (if filepath in disk then [] else [Err(NoSuchFile(filepath))])
                  && out.uncaught == (if filepath in disk then Some(NotAFunction("parse")) else None)
                  && cache.entries == StoreRead(SyncEntries(route.sync, filepath, opts, old(cache.entries), disk),
                                                filepath, CacheOn(opts), disk)
                  && cache.fileReads == old(cache.fileReads) + SyncCost(route.sync, filepath, opts, old(cache.entries)) + 1)
  {
    // options = extend({}, options); options.filename = filepath;
    var copied := Extend(Some(map[]), [CallerOptions(rest)]);
    var options := copied["filename" := Str(filepath)];
    var callback := LastIsFunction(rest);
    ghost var route := SelectRoute(backend.caps, callback);
    ghost var entries0 := cache.entries;

    var readStarted := false;
    if callback {
      if backend.caps.hasParse {
        var result := backend.parse(filepath, options);
        return Outcome(Returned(Undefined), [result], None);
      }
      if backend.caps.hasParseFile {
        // read(filepath, options, function (err, str) { … parse(str, opts, cb) … })
        var cacheOn := CacheOn(options);
        var str := if filepath in cache.entries then cache.entries[filepath] else "";
        if cacheOn && str != "" {
          // A hit calls back at once; the callback calls the absent `parse`.
          var _ := cache.Read(filepath, options, disk);
          return Outcome(Threw(NotAFunction("parse")), [], None);
        }
        readStarted := true;
      }
    }

    var completion;
    if backend.caps.hasParseSync {
      completion := AsCompletion(backend.parseSync(filepath, options));
    } else if backend.caps.hasParseFileSync {
      var str := cache.ReadSync(filepath, options, disk);
      match str {
        case Err(e) => completion := Threw(e);
        // `exports[name].parseSync(str, options)`: parseSync is absent here.
        case Ok(_) => completion := Threw(NotAFunction("parseSync"));
      }
    } else {
      completion := Threw(CouldNotParse(CouldNotParseMessage));
    }

    out := Outcome(completion, [], None);
    if readStarted {
      // fs.readFile completes after the adapter has returned or thrown.
      var read := cache.ReadDone(filepath, options, disk);
      match read {
        case Err(e) => out := out.(callbacks := [Err(e)]);
        case Ok(_) => out := out.(uncaught := Some(NotAFunction("parse")));
      }
    }
  }

  /** A backend with `parseFileSync` but no `parseSync` never returns a
      value to a synchronous caller: it throws the read error, or a TypeError
      once the file has been read (and stored, when caching is on). */
  lemma ParseFileSyncRouteNeverReturns(backend: Backend, filepath: string, opts: Props,
                                                          entries: map<string, string>, disk: Disk)
    requires !backend.caps.hasParseSync && backend.caps.hasParseFileSync
    ensures SelectRoute(backend.caps, false) == FallThrough(false, ReadSyncThenParseSync)
    ensures var c := SyncCompletion(backend, SelectRoute(backend.caps, false).sync, filepath, opts, entries, disk);
            c.Threw? &&
            (filepath in disk || Hit(entries, filepath, CacheOn(opts)) ==> c.error == NotAFunction("parseSync"))
  {
  }

  /** For remarkable, marked and markdownjs the adapter always runs
      `parseSync` on its first argument: a trailing callback is never called
      and no file is read. */
  lemma ParseSyncOnlyIgnoresCallback(caps: Caps, lastIsFunction: bool)
    requires ParseSyncOnly(caps)
    ensures SelectRoute(caps, lastIsFunction) == FallThrough(false, CallParseSync)
  {
  }

  /** The four backends index.js sets up. None of them reaches the
      `parseFile` branch, `readSync`, or the "Could not parse" error;
      matter's `parseFileSync` is never used, so a path given to
      `matter(…)` without a callback is parsed as text. */
  lemma ConfiguredBackendRoutes(lastIsFunction: bool)
    ensures ParseSyncOnly(RemarkableCaps) && ParseSyncOnly(MarkedCaps) && ParseSyncOnly(MarkdownjsCaps)
    ensures SelectRoute(MatterCaps, lastIsFunction)
            == if lastIsFunction then CallParse else FallThrough(false, CallParseSync)
  {
  }

  /** Without a trailing function no callback is ever called and nothing
      is read asynchronously, whatever the backend. */
  lemma NoCallbackNoAsync(caps: Caps)
    ensures SelectRoute(caps, false).FallThrough?
    ensures !SelectRoute(caps, false).readThenParse
  {
  }

  /** The "Could not parse" error is the same whatever the input, so it
      cannot tell the caller what failed to parse. */
  lemma CouldNotParseDropsInput(backend: Backend, p1: string, p2: string, o1: Props, o2: Props,
                                e1: map<string, string>, e2: map<string, string>, disk: Disk)
    ensures SyncCompletion(backend, ThrowCouldNotParse, p1, o1, e1, disk)
            == SyncCompletion(backend, ThrowCouldNotParse, p2, o2, e2, disk)
            == Threw(CouldNotParse("Could not parse:"))
  {
  }

  /** The backend's options are the caller's own properties plus
      `filename`: a caller's `filename` is overwritten, a call with no
      options or with the callback in the options slot passes only
      `filename`. */
  lemma BackendOptionsShape(rest: seq<Value>, filepath: string)
    ensures (rest == [] || rest[0].Func?) ==> BackendOptions(CallerOptions(rest), filepath) == map["filename" := Str(filepath)]
    ensures |rest| > 0 && rest[0].Obj? ==> BackendOptions(CallerOptions(rest), filepath) == rest[0].props["filename" := Str(filepath)]
  {
  }
}
