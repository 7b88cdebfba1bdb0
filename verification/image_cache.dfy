/**
 * ImageCache: records the calls made on it instead of running them, derives a
 * checksum from the recorded list, replays the list on a fresh CachedImage, and
 * serves the encoded result through an external cache ("compute on miss,
 * return on hit").
 *
 * `md5(serialize($calls))` is the uninterpreted function `fingerprint` over the
 * call list; the image library is the `Engine` record of ImageEngine.
 */
module ImageCache {

  import opened Wrappers
  import opened ImageEngine
  import opened CacheRepository

  /** Calls that `processCall` forwards statically instead of on the image. */
  const ReservedStaticCalls: seq<string> := ["make", "canvas", "raw"]

  /** The cache lifetime, in minutes, used when `get` receives `null`. */
  const DefaultLifetime: int := 5

  /** One step of the replay: `processCall($call)` applied to the current image. */
  function Step<I>(engine: Engine<I>, image: I, call: Call): I
  {
    if engine.has(image, call.name) then
      engine.apply(image, call.name, call.arguments, call.name in ReservedStaticCalls)
    else
      image
  }

  /** The image obtained by applying `calls`, in order, starting from `image` (a left fold). */
  function Replay<I>(engine: Engine<I>, image: I, calls: seq<Call>): I
    decreases |calls|
  {
    if calls == [] then image else Replay(engine, Step(engine, image, calls[0]), calls[1..])
  }

  /** Replaying a concatenation replays the first part, then the second from where it left off. */
  lemma {:induction false} ReplayAppend<I>(engine: Engine<I>, image: I, first: seq<Call>, second: seq<Call>)
    ensures Replay(engine, image, first + second) == Replay(engine, Replay(engine, image, first), second)
    decreases |first|
  {
    if first != [] {
      assert (first + second)[0] == first[0];
      assert (first + second)[1..] == first[1..] + second;
      ReplayAppend(engine, Step(engine, image, first[0]), first[1..], second);
    } else {
      assert first + second == second;
    }
  }

  /** Replaying one more call processes it on the image the earlier calls produced. */
  lemma ReplayOneMore<I>(engine: Engine<I>, image: I, calls: seq<Call>, call: Call)
    ensures Replay(engine, image, calls + [call]) == Step(engine, Replay(engine, image, calls), call)
  {
    ReplayAppend(engine, image, calls, [call]);
  }

  /**
   * A recorded call whose name the current image does not have is skipped: the
   * final image is the one obtained without that call.
   */
  lemma UnknownCallSkipped<I>(engine: Engine<I>, image: I, before: seq<Call>, call: Call, after: seq<Call>)
    requires !engine.has(Replay(engine, image, before), call.name)
    ensures Replay(engine, image, before + [call] + after) == Replay(engine, image, before + after)
  {
    ReplayAppend(engine, image, before + [call], after);
    ReplayOneMore(engine, image, before, call);
    ReplayAppend(engine, image, before, after);
  }

  /**
   * A call the current image has is dispatched to the engine, statically exactly
   * when its name is `make`, `canvas` or `raw`.
   */
  lemma KnownCallDispatched<I>(engine: Engine<I>, image: I, before: seq<Call>, call: Call)
    requires engine.has(Replay(engine, image, before), call.name)
    ensures Replay(engine, image, before + [call])
         == engine.apply(Replay(engine, image, before), call.name, call.arguments,
                         call.name == "make" || call.name == "canvas" || call.name == "raw")
  {
    ReplayOneMore(engine, image, before, call);
  }

  /** PHP truthiness of what the cache's `get` answered: `null`, `""` and `"0"` are false. */
  predicate Truthy(v: Option<string>)
  {
    v.Some? && v.value != "" && v.value != "0"
  }

  /** What `process()` returns for a given call list. */
  function Processed<I>(engine: Engine<I>, fingerprint: seq<Call> -> string, calls: seq<Call>): CachedImage<I>
  {
    CachedImage(Replay(engine, engine.blank, calls), Some(fingerprint(calls)))
  }

  /** What `get` answers: the raw bytes or an image object. */
  datatype Output<I> = Raw(bytes: string) | Object(image: CachedImage<I>)

  class ImageCache<I> {
    /** Cache lifetime in minutes. */
    var lifetime: int
    /** The recorded calls, in the order they were made. */
    var calls: seq<Call>
    /** The image last processed (`null` before the first `process`). */
    var image: Option<CachedImage<I>>
    /** The cache repository, injected at construction. */
    const cache: Repository
    /** The image library. */
    const engine: Engine<I>
    /** `md5(serialize(...))` over a call list. */
    const fingerprint: seq<Call> -> string
    /** How many times `process` has run on this object. */
    ghost var processRuns: nat

    /** The constructor with an injected cache repository. */
    constructor (cache: Repository, engine: Engine<I>, fingerprint: seq<Call> -> string)
      ensures this.cache == cache && this.engine == engine && this.fingerprint == fingerprint
      ensures lifetime == DefaultLifetime && calls == [] && image == None && processRuns == 0
    {
      this.cache := cache;
      this.engine := engine;
      this.fingerprint := fingerprint;
      lifetime := DefaultLifetime;
      calls := [];
      image := None;
      processRuns := 0;
    }

    /** `__call`: records any unknown method call and returns this object for chaining. */
    method Intercept(name: string, arguments: seq<Value>) returns (self: ImageCache<I>)
      modifies this`calls
      ensures self == this
      ensures calls == old(calls) + [Call(name, arguments)]
    {
      RegisterCall(name, arguments);
      self := this;
    }

    /** `registerCall`: appends one `{name, arguments}` record at the end of the list. */
    method RegisterCall(name: string, arguments: seq<Value>)
      modifies this`calls
      ensures |calls| == |old(calls)| + 1
      ensures calls[..|old(calls)|] == old(calls)
      ensures calls[|old(calls)|] == Call(name, arguments)
    {
      calls := calls + [Call(name, arguments)];
    }

    /** `clearCalls`: empties the recorded list. */
    method ClearCalls()
      modifies this`calls
      ensures calls == []
    {
      calls := [];
    }

    /** `getCalls`: the recorded calls (its `count(...) ? ... : array()` answers the list in both branches). */
    function GetCalls(): (r: seq<Call>)
      reads this
      ensures r == calls
    {
      if |calls| > 0 then calls else []
    }

    /** `checksum`: the fingerprint of the current call list; reads the list and changes nothing. */
    function Checksum(): (r: string)
      reads this
      ensures r == fingerprint(calls)
    {
      fingerprint(GetCalls())
    }

    /** `processCall`: one step of the replay on the current image. */
    method ProcessCall(call: Call)
      requires image.Some?
      modifies this`image
      ensures image == Some(CachedImage(Step(engine, old(image).value.state, call), old(image).value.cachekey))
    {
      var current := image.value;
      if engine.has(current.state, call.name) {
        var isStatic := call.name in ReservedStaticCalls;
        image := Some(current.(state := engine.apply(current.state, call.name, call.arguments, isStatic)));
      }
    }

    /**
     * `process`: replays the recorded calls on a fresh image, stamps it with the
     * checksum of the calls it replayed, then clears the list.
     */
    method Process() returns (result: CachedImage<I>)
      modifies this`image, this`calls, this`processRuns
      ensures result == Processed(engine, fingerprint, old(calls))
      ensures result.cachekey == Some(fingerprint(old(calls)))
      ensures image == Some(result)
      ensures calls == []
      ensures processRuns == old(processRuns) + 1
    {
      image := Some(CachedImage(engine.blank, None));
      var pending := GetCalls();
      var i := 0;
      while i < |pending|
        invariant 0 <= i <= |pending|
        invariant pending == calls == old(calls) && processRuns == old(processRuns)
        invariant image == Some(CachedImage(Replay(engine, engine.blank, pending[..i]), None))
      {
        ReplayOneMore(engine, engine.blank, pending[..i], pending[i]);
        assert pending[..i + 1] == pending[..i] + [pending[i]];
        ProcessCall(pending[i]);
        i := i + 1;
      }
      assert pending[..i] == pending;
      image := Some(image.value.(cachekey := Some(Checksum())));
      ClearCalls();
      processRuns := processRuns + 1;
      result := image.value;
    }

    /**
     * `get`: on a hit (the cached value is truthy) answers it, raw or as an image
     * stamped with the key, and touches nothing; on a miss processes the calls,
     * stores the encoded image under the key computed before processing, and
     * answers the bytes it stored or the processed image.
     */
    method Get(lifetimeArg: Option<int>, returnObj: bool) returns (out: Output<I>)
      modifies this`image, this`calls, this`processRuns, cache
      ensures var key := fingerprint(old(calls));
              var cached := old(cache.Lookup(key));
              Truthy(cached) ==>
                && out == (if returnObj then Object(CachedImage(engine.decode(cached.value), Some(key)))
                           else Raw(cached.value))
                && calls == old(calls) && image == old(image) && processRuns == old(processRuns)
                && cache.entries == old(cache.entries) && cache.puts == old(cache.puts)
      ensures var key := fingerprint(old(calls));
              var processed := Processed(engine, fingerprint, old(calls));
              var bytes := engine.encode(processed.state);
              var minutes := if lifetimeArg.None? then lifetime else lifetimeArg.value;
              !Truthy(old(cache.Lookup(key))) ==>
                && out == (if returnObj then Object(processed) else Raw(bytes))
                && calls == [] && image == Some(processed) && processRuns == old(processRuns) + 1
                && cache.entries == old(cache.entries)[key := bytes]
                && cache.puts == old(cache.puts) + [PutRecord(key, bytes, minutes)]
    {
      var minutes := if lifetimeArg.None? then lifetime else lifetimeArg.value;
      var key := Checksum();
      var cached := cache.Get(key);
      if Truthy(cached) {
        if returnObj {
          out := Object(CachedImage(engine.decode(cached.value), Some(key)));
        } else {
          out := Raw(cached.value);
        }
      } else {
        var processed := Process();
        cache.Put(key, engine.encode(processed.state), minutes);
        out := if returnObj then Object(processed) else Raw(engine.encode(processed.state));
      }
    }
  }

  /**
   * A repeated request is served from the cache: after a miss on one object, a
   * second object with the same calls, library, fingerprint and cache gets the
   * very bytes the first stored, without processing, provided those bytes are
   * truthy.
   */
  method RepeatedRequestHitsCache<I>(first: ImageCache<I>, second: ImageCache<I>, lifetimeArg: Option<int>)
      returns (bytes1: string, bytes2: string)
    requires first != second && first.cache == second.cache
    requires first.engine == second.engine && first.fingerprint == second.fingerprint
    requires first.calls == second.calls
    requires !Truthy(first.cache.Lookup(first.Checksum()))
    requires Truthy(Some(first.engine.encode(Replay(first.engine, first.engine.blank, first.calls))))
    modifies first, second, first.cache
    ensures bytes2 == bytes1
    ensures second.processRuns == old(second.processRuns) && second.calls == old(second.calls)
    ensures first.cache.puts == old(first.cache.puts)
                                + [PutRecord(first.fingerprint(old(first.calls)), bytes1,
                                             if lifetimeArg.None? then first.lifetime else lifetimeArg.value)]
  {
    var out1 := first.Get(lifetimeArg, false);
    var out2 := second.Get(lifetimeArg, false);
    bytes1 := out1.bytes;
    bytes2 := out2.bytes;
  }
}
