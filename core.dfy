/**
  core.rs: the owned `Core` handle, its configuration setters and the v1
  filter-registration path, and `CoreBuilder`, which accumulates creation
  flags and optional settings and then builds a core.
 */
module Cores {
  import opened Vs
  import opened Wrappers
  import opened CStrings
  import opened Filters
  import opened Engine

  /** The structured error of the v1 video registration path. */
  datatype FilterError = InvalidName | TooMuchDependency | Internal(message: Bytes)

  /**
    The checks `create_video_filter` runs before calling the engine, in order:
    the name must become a C string, then the dependency count must fit a C
    `int`.  On success the result is the C-string name.
   */
  function RegistrationPrecheck(name: Bytes, depCount: nat): (r: Result<Bytes, FilterError>)
    ensures r == Err(InvalidName) <==> HasNul(name)
    ensures r == Err(TooMuchDependency) <==> !HasNul(name) && depCount > I32_MAX
    ensures r.Ok? <==> !HasNul(name) && depCount <= I32_MAX
    ensures r.Ok? ==> r.value == name
  {
    match CStringNew(name)
    case Err(_) => Err(InvalidName)
    case Ok(cname) => if depCount <= I32_MAX then Ok(cname) else Err(TooMuchDependency)
  }

  const INVALID_NAME_MESSAGE: Bytes := Ascii("Invalid name")
  const TOO_MANY_DEPENDENCIES_MESSAGE: Bytes := Ascii("dependencies len is larger than i32::MAX")

  /** The same checks on the audio path, which reports them as C-string messages. */
  function AudioRegistrationPrecheck(name: Bytes, depCount: nat): (r: Result<Bytes, Bytes>)
    ensures r == Err(INVALID_NAME_MESSAGE) <==> HasNul(name)
    ensures r == Err(TOO_MANY_DEPENDENCIES_MESSAGE) <==> !HasNul(name) && depCount > I32_MAX
    ensures r.Ok? <==> !HasNul(name) && depCount <= I32_MAX
    ensures r.Ok? ==> r.value == name
  {
    assert INVALID_NAME_MESSAGE != TOO_MANY_DEPENDENCIES_MESSAGE by {
      assert |INVALID_NAME_MESSAGE| != |TOO_MANY_DEPENDENCIES_MESSAGE|;
    }
    match RegistrationPrecheck(name, depCount)
    case Ok(cname) => Ok(cname)
    case Err(InvalidName) => Err(INVALID_NAME_MESSAGE)
    case Err(_) => Err(TOO_MANY_DEPENDENCIES_MESSAGE)
  }

  /** The filter record the engine is asked to register. */
  function FilterRecord(name: Bytes, stream: StreamInfo, filter: FilterInstance, deps: seq<FilterDependency>): (f: RegisteredFilter)
    ensures f.mode.Value() == FilterModeOf(filter.ty).Discriminant()
    ensures filter.ty.modeOverride.None? ==> f.mode == FmParallel
    ensures f.name == name && f.stream == stream && f.deps == deps && f.instance == filter && f.live
  {
    RegisteredFilter(name, stream, FilterModeToVs(FilterModeOf(filter.ty)), deps, filter, true)
  }

  /** An owned core. */
  class Core {
    const handle: VsCore

    /** `Core::new()`: a core created with no flags. */
    constructor New(defaults: EngineDefaults)
      ensures fresh(handle)
      ensures handle.flags == 0
      ensures handle.info == CoreInfo(defaults.maxCacheSize, defaults.threadCount)
      ensures handle.calls == [] && handle.filters == [] && handle.freed == []
      ensures handle.Valid()
    {
      handle := new VsCore(0, defaults);
    }

    /** `Core::new_with(flags)`. */
    constructor NewWith(flags: bv32, defaults: EngineDefaults)
      ensures fresh(handle)
      ensures handle.flags == flags
      ensures handle.info == CoreInfo(defaults.maxCacheSize, defaults.threadCount)
      ensures handle.calls == [] && handle.filters == [] && handle.freed == []
      ensures handle.Valid()
    {
      handle := new VsCore(flags, defaults);
    }

    /** `Default for Core`: the same as `Core::new()`. */
    static method Default(defaults: EngineDefaults) returns (core: Core)
      ensures fresh(core) && fresh(core.handle)
      ensures core.handle.flags == 0
      ensures core.handle.info == CoreInfo(defaults.maxCacheSize, defaults.threadCount)
      ensures core.handle.calls == [] && core.handle.filters == [] && core.handle.freed == []
      ensures core.handle.Valid()
    {
      core := new Core.New(defaults);
    }

    /** `get_info`, reduced to the resource policy: what the engine currently reports. */
    function Info(): (info: CoreInfo)
      reads handle
      ensures info.maxFramebufferSize == handle.info.maxFramebufferSize
      ensures info.numThreads == handle.info.numThreads
    {
      handle.info
    }

    method SetMaxCacheSize(size: i64)
      modifies handle
      ensures Info() == old(Info()).(maxFramebufferSize := size)
      ensures handle.calls == old(handle.calls) + [MaxCacheSizeSet(size)]
      ensures handle.filters == old(handle.filters) && handle.freed == old(handle.freed)
    {
      handle.SetMaxCacheSize(size);
    }

    method SetThreadCount(count: i32)
      modifies handle
      ensures Info() == old(Info()).(numThreads := count)
      ensures handle.calls == old(handle.calls) + [ThreadCountSet(count)]
      ensures handle.filters == old(handle.filters) && handle.freed == old(handle.freed)
    {
      handle.SetThreadCount(count);
    }

    /**
      `create_video_filter`.  A name with a NUL byte or too many dependencies
      is refused before the engine is called, so nothing changes.  Otherwise
      the engine registers the filter or writes `rejection` into `out`, and
      the result is an error exactly when `out` then holds one.
     */
    method CreateVideoFilter(
      out: VsMap,
      name: Bytes,
      info: VideoInfo,
      filter: FilterInstance,
      deps: seq<FilterDependency>,
      rejection: Option<Bytes>)
      returns (r: Result<(), FilterError>)
      requires handle.Valid()
      modifies handle, out
      ensures handle.Valid()
      ensures RegistrationPrecheck(name, |deps|).Err? ==>
        r == Err(RegistrationPrecheck(name, |deps|).error) && unchanged(handle) && unchanged(out)
      ensures RegistrationPrecheck(name, |deps|).Ok? ==>
        && handle.filters == old(handle.filters) +
             (if rejection.None? then [FilterRecord(name, VideoStream(info), filter, deps)] else [])
        && out.error == (if rejection.Some? then rejection else old(out.error))
        && (r.Err? <==> out.error.Some?)
        && (r.Err? ==> r.error == Internal(out.error.value))
      ensures handle.info == old(handle.info) && handle.calls == old(handle.calls) && handle.freed == old(handle.freed)
    {
      var cname :- RegistrationPrecheck(name, |deps|);
      handle.RegisterIntoMap(out, FilterRecord(cname, VideoStream(info), filter, deps), rejection);
      if out.error.Some? {
        return Err(Internal(out.error.value));
      }
      return Ok(());
    }

    /**
      `create_audio_filter`: the same path, failing with the engine's error
      text as it is, or with the fixed messages of the two checks.
     */
    method CreateAudioFilter(
      out: VsMap,
      name: Bytes,
      info: AudioInfo,
      filter: FilterInstance,
      deps: seq<FilterDependency>,
      rejection: Option<Bytes>)
      returns (r: Result<(), Bytes>)
      requires handle.Valid()
      modifies handle, out
      ensures handle.Valid()
      ensures AudioRegistrationPrecheck(name, |deps|).Err? ==>
        r == Err(AudioRegistrationPrecheck(name, |deps|).error) && unchanged(handle) && unchanged(out)
      ensures AudioRegistrationPrecheck(name, |deps|).Ok? ==>
        && handle.filters == old(handle.filters) +
             (if rejection.None? then [FilterRecord(name, AudioStream(info), filter, deps)] else [])
        && out.error == (if rejection.Some? then rejection else old(out.error))
        && (r.Err? <==> out.error.Some?)
        && (r.Err? ==> r.error == out.error.value)
      ensures handle.info == old(handle.info) && handle.calls == old(handle.calls) && handle.freed == old(handle.freed)
    {
      var cname :- AudioRegistrationPrecheck(name, |deps|);
      handle.RegisterIntoMap(out, FilterRecord(cname, AudioStream(info), filter, deps), rejection);
      if out.error.Some? {
        return Err(out.error.value);
      }
      return Ok(());
    }
  }

  /** `flags` with the creation-flag `bit` ORed in: that bit is set, no other bit changes. */
  function WithFlag(flags: bv32, bit: bv32): (r: bv32)
    ensures r & bit == bit
    ensures r & !bit == flags & !bit
  {
    flags | bit
  }

  /** Setting a flag never clears one. */
  lemma WithFlagKeepsBits(flags: bv32, bit: bv32)
    ensures WithFlag(flags, bit) & flags == flags
  {
  }

  /** Setting a flag twice is setting it once. */
  lemma WithFlagIdempotent(flags: bv32, bit: bv32)
    ensures WithFlag(WithFlag(flags, bit), bit) == WithFlag(flags, bit)
  {
  }

  /**
    The configuration calls `build` makes after creating the core: the cache
    size only if it was set, then the thread count only if it was set.
   */
  function BuildCalls(maxCacheSize: Option<i64>, threadCount: Option<i32>): (r: seq<ConfigCall>)
    ensures |r| == (if maxCacheSize.Some? then 1 else 0) + (if threadCount.Some? then 1 else 0)
    ensures maxCacheSize.Some? ==> r[0] == MaxCacheSizeSet(maxCacheSize.value)
    ensures threadCount.Some? ==> r[|r| - 1] == ThreadCountSet(threadCount.value)
    ensures forall i :: 0 <= i < |r| ==> (r[i].MaxCacheSizeSet? <==> i == 0 && maxCacheSize.Some?)
  {
    (if maxCacheSize.Some? then [MaxCacheSizeSet(maxCacheSize.value)] else []) +
    (if threadCount.Some? then [ThreadCountSet(threadCount.value)] else [])
  }

  /** A process-wide API table handle; only its identity is modelled. */
  datatype ApiRef = ApiRef(table: nat)

  /** `CoreBuilder`. */
  class CoreBuilder {
    var flags: bv32
    var api: Option<ApiRef>
    var maxCacheSize: Option<i64>
    var threadCount: Option<i32>

    /** `CoreBuilder::new()` (its `Default`): no flags and nothing set. */
    constructor ()
      ensures flags == 0 && api == None && maxCacheSize == None && threadCount == None
    {
      flags, api, maxCacheSize, threadCount := 0, None, None, None;
    }

    method EnableGraphInspection() returns (builder: CoreBuilder)
      modifies this
      ensures builder == this
      ensures flags == WithFlag(old(flags), CCF_ENABLE_GRAPH_INSPECTION)
      ensures api == old(api) && maxCacheSize == old(maxCacheSize) && threadCount == old(threadCount)
    {
      flags := flags | CCF_ENABLE_GRAPH_INSPECTION;
      builder := this;
    }

    method DisableAutoLoading() returns (builder: CoreBuilder)
      modifies this
      ensures builder == this
      ensures flags == WithFlag(old(flags), CCF_DISABLE_AUTO_LOADING)
      ensures api == old(api) && maxCacheSize == old(maxCacheSize) && threadCount == old(threadCount)
    {
      flags := flags | CCF_DISABLE_AUTO_LOADING;
      builder := this;
    }

    method DisableLibraryUnloading() returns (builder: CoreBuilder)
      modifies this
      ensures builder == this
      ensures flags == WithFlag(old(flags), CCF_DISABLE_LIBRARY_UNLOADING)
      ensures api == old(api) && maxCacheSize == old(maxCacheSize) && threadCount == old(threadCount)
    {
      flags := flags | CCF_DISABLE_LIBRARY_UNLOADING;
      builder := this;
    }

    method MaxCacheSize(size: i64) returns (builder: CoreBuilder)
      modifies this
      ensures builder == this
      ensures maxCacheSize == Some(size)
      ensures flags == old(flags) && api == old(api) && threadCount == old(threadCount)
    {
      maxCacheSize := Some(size);
      builder := this;
    }

    method ThreadCount(count: i32) returns (builder: CoreBuilder)
      modifies this
      ensures builder == this
      ensures threadCount == Some(count)
      ensures flags == old(flags) && api == old(api) && maxCacheSize == old(maxCacheSize)
    {
      threadCount := Some(count);
      builder := this;
    }

    method Api(table: ApiRef) returns (builder: CoreBuilder)
      modifies this
      ensures builder == this
      ensures api == Some(table)
      ensures flags == old(flags) && maxCacheSize == old(maxCacheSize) && threadCount == old(threadCount)
    {
      api := Some(table);
      builder := this;
    }

    /**
      `build`: a core created with exactly the accumulated flags, then given
      each setting that was set, cache size first.  The `api` field is not
      read.
     */
    method Build(defaults: EngineDefaults) returns (core: Core)
      ensures fresh(core) && fresh(core.handle)
      ensures core.handle.flags == flags
      ensures core.handle.calls == BuildCalls(maxCacheSize, threadCount)
      ensures core.Info().maxFramebufferSize == if maxCacheSize.Some? then maxCacheSize.value else defaults.maxCacheSize
      ensures core.Info().numThreads == if threadCount.Some? then threadCount.value else defaults.threadCount
      ensures core.handle.filters == [] && core.handle.freed == [] && core.handle.Valid()
    {
      core := new Core.NewWith(flags, defaults);
      if maxCacheSize.Some? {
        core.SetMaxCacheSize(maxCacheSize.value);
      }
      if threadCount.Some? {
        core.SetThreadCount(threadCount.value);
      }
    }
  }

  /**
    The builder chain of the crate's own test: all three flags, a cache size
    of 1024 and four threads give a core that reports exactly those.
   */
  method BuilderScenario(defaults: EngineDefaults) returns (core: Core)
    ensures core.handle.flags == CCF_ENABLE_GRAPH_INSPECTION | CCF_DISABLE_AUTO_LOADING | CCF_DISABLE_LIBRARY_UNLOADING
    ensures core.Info().maxFramebufferSize == 1024 && core.Info().numThreads == 4
  {
    var b := new CoreBuilder();
    b := b.EnableGraphInspection();
    b := b.DisableAutoLoading();
    b := b.DisableLibraryUnloading();
    b := b.MaxCacheSize(1024);
    b := b.ThreadCount(4);
    core := b.Build(defaults);
  }
}
