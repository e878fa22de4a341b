/** The two object helpers of index.js: `extend` (index.js:59-81), a shallow
    key-by-key merge, and `callback` (index.js:89-95), which sorts out an
    `(options, cb)` argument pair. */
module Objects {
  import opened JsValues

  /** What `extend` leaves in a non-null target `t` after copying the sources
      in order: each source's own properties overwrite the ones already there
      (Dafny's `m + n` keeps `n`'s value on a shared key). */
  function MergeAll(t: Props, sources: seq<Value>): (r: Props)
    ensures t.Keys <= r.Keys
    ensures sources != [] ==> OwnProps(sources[|sources| - 1]).Keys <= r.Keys
    decreases |sources|
  {
    if sources == [] then t
    else MergeAll(t, sources[..|sources| - 1]) + OwnProps(sources[|sources| - 1])
  }

  /** Some source among `sources` has `key` as an own property. */
  predicate DefinedIn(key: string, sources: seq<Value>) {
    exists i :: 0 <= i < |sources| && key in OwnProps(sources[i])
  }

  /** `i` is the last source having `key`. */
  predicate LastDefining(key: string, sources: seq<Value>, i: int) {
    0 <= i < |sources| && key in OwnProps(sources[i]) &&
    forall j :: i < j < |sources| ==> key !in OwnProps(sources[j])
  }

  /** The merge holds every key of the target and every key of a source, and
      no other. */
  lemma {:induction false} MergeAllKeys(t: Props, sources: seq<Value>, key: string)
    ensures key in MergeAll(t, sources) <==> key in t || DefinedIn(key, sources)
    decreases |sources|
  {
    if sources != [] {
      var init := sources[..|sources| - 1];
      MergeAllKeys(t, init, key);
      if DefinedIn(key, init) {
        var i :| 0 <= i < |init| && key in OwnProps(init[i]);
        assert sources[i] == init[i];
      }
      if DefinedIn(key, sources) && key !in OwnProps(sources[|sources| - 1]) {
        var i :| 0 <= i < |sources| && key in OwnProps(sources[i]);
        assert init[i] == sources[i];
      }
    }
  }

  /** A key keeps the value of the last source that defines it. */
  lemma {:induction false} MergeAllLastWins(t: Props, sources: seq<Value>, key: string, i: int)
    requires LastDefining(key, sources, i)
    ensures key in MergeAll(t, sources)
    ensures MergeAll(t, sources)[key] == OwnProps(sources[i])[key]
    decreases |sources|
  {
    var init := sources[..|sources| - 1];
    if i < |sources| - 1 {
      assert init[i] == sources[i];
      assert LastDefining(key, init, i);
      MergeAllLastWins(t, init, key, i);
    }
  }

  /** With one source, the merge is that source's properties laid over the
      target; `extend({}, options)` is thus a copy of `options`' own
      properties. */
  lemma MergeAllSingle(t: Props, v: Value)
    ensures MergeAll(t, [v]) == t + OwnProps(v)
  {
  }

  /** A key that no source defines keeps the target's value. */
  lemma {:induction false} MergeAllKeepsTarget(t: Props, sources: seq<Value>, key: string)
    requires !DefinedIn(key, sources)
    ensures key in MergeAll(t, sources) <==> key in t
    ensures key in t ==> MergeAll(t, sources)[key] == t[key]
    decreases |sources|
  {
    if sources != [] {
      var init := sources[..|sources| - 1];
      forall i | 0 <= i < |init| ensures key !in OwnProps(init[i]) {
        assert init[i] == sources[i];
      }
      assert key !in OwnProps(sources[|sources| - 1]);
      MergeAllKeepsTarget(t, init, key);
    }
  }

  /** `extend(o, ...sources)`. A nullish target (`o == null`, given as `None`)
      yields a fresh empty object whatever the sources; no sources give the
      target back as it is; otherwise every own property of every source is
      assigned into the target, source by source and key by key. */
  method Extend(o: Option<Props>, sources: seq<Value>) returns (r: Props)
    ensures o.None? ==> r == map[]
    ensures o.Some? && sources == [] ==> r == o.value
    ensures o.Some? ==> r == MergeAll(o.value, sources)
  {
    if o.None? {
      return map[];
    }
    var target := o.value;
    var len := |sources|;
    if len == 0 {
      return target;
    }
    var i := 0;
    while i < len
      invariant 0 <= i <= len
      invariant target == MergeAll(o.value, sources[..i])
    {
      var obj := OwnProps(sources[i]);
      ghost var before := target;
      var keys := obj.Keys;
      while keys != {}
        invariant keys <= obj.Keys
        invariant target.Keys == before.Keys + (obj.Keys - keys)
        invariant forall k :: k in obj.Keys - keys ==> target[k] == obj[k]
        invariant forall k :: k in before && k !in obj.Keys - keys ==> target[k] == before[k]
        decreases keys
      {
        var key :| key in keys;
        target := target[key := obj[key]];
        keys := keys - {key};
      }
      assert sources[..i + 1][..i] == sources[..i];
      assert target == before + obj;
      i := i + 1;
    }
    assert sources[..len] == sources;
    r := target;
  }

  /** `callback`'s result: the options and the completion function. */
  datatype CallbackArgs = CallbackArgs(options: Value, cb: Value)

  /** `callback(options, cb)`: when the options slot holds a function, that
      function is the callback and the options become a fresh empty object;
      otherwise both arguments pass through untouched. */
  function Callback(options: Value, cb: Value): (r: CallbackArgs)
    ensures !r.options.Func?
    ensures options.Func? ==> r.cb == options && r.options == Obj(map[])
    ensures !options.Func? ==> r.options == options && r.cb == cb
  {
    if options.Func? then CallbackArgs(Obj(map[]), options)
    else CallbackArgs(options, cb)
  }

  /** Sorting the arguments out a second time changes nothing. */
  lemma CallbackIdempotent(options: Value, cb: Value)
    ensures Callback(Callback(options, cb).options, Callback(options, cb).cb)
            == Callback(options, cb)
  {
  }
}
