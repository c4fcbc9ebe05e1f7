/**
  The VapourSynth engine as the binding sees it through the API table: an
  opaque collaborator.  A core records its creation flags, its resource policy
  and the configuration calls made on it, and keeps the registry of filters;
  an out map has an error slot; a frame context has a filter-error slot.
  Whatever the engine decides on its own (its defaults, whether it accepts a
  registration) is a parameter of the call that asks it.
 */
module Engine {
  import opened Vs
  import opened Wrappers
  import opened CStrings
  import opened Filters

  /** The resource policy `createCore` chooses by itself. */
  datatype EngineDefaults = EngineDefaults(maxCacheSize: int, threadCount: int)

  /** VSCoreInfo, reduced to the resource-policy fields. */
  datatype CoreInfo = CoreInfo(maxFramebufferSize: int, numThreads: int)

  /** A configuration call made on a core after its creation. */
  datatype ConfigCall = MaxCacheSizeSet(size: i64) | ThreadCountSet(count: i32)

  /** The stream description a node was registered with. */
  datatype StreamInfo = VideoStream(video: VideoInfo) | AudioStream(audio: AudioInfo)

  /**
    A filter held by the engine: what it was registered with, its instance
    data, and whether that instance has not yet been handed to the free
    callback.
   */
  datatype RegisteredFilter = RegisteredFilter(
    name: Bytes,
    stream: StreamInfo,
    mode: VSFilterMode,
    deps: seq<FilterDependency>,
    instance: FilterInstance,
    live: bool)

  /** A `VSCore`. */
  class VsCore {
    const flags: bv32
    var info: CoreInfo
    var calls: seq<ConfigCall>
    var filters: seq<RegisteredFilter>
    /** The instances passed to user `free`, in order. */
    var freed: seq<FilterInstance>

    /** Every registered filter came with a C-string name and an `int` dependency count. */
    ghost predicate Valid()
      reads this
    {
      forall i :: 0 <= i < |filters| ==> !HasNul(filters[i].name) && |filters[i].deps| <= I32_MAX
    }

    /** `createCore(flags)`. */
    constructor (flags: bv32, defaults: EngineDefaults)
      ensures this.flags == flags
      ensures info == CoreInfo(defaults.maxCacheSize, defaults.threadCount)
      ensures calls == [] && filters == [] && freed == []
      ensures Valid()
    {
      this.flags := flags;
      info := CoreInfo(defaults.maxCacheSize, defaults.threadCount);
      calls, filters, freed := [], [], [];
    }

    /** `setMaxCacheSize`: the policy records the requested size. */
    method SetMaxCacheSize(size: i64)
      modifies this
      ensures info == old(info).(maxFramebufferSize := size)
      ensures calls == old(calls) + [MaxCacheSizeSet(size)]
      ensures filters == old(filters) && freed == old(freed)
    {
      info := info.(maxFramebufferSize := size);
      calls := calls + [MaxCacheSizeSet(size)];
    }

    /** `setThreadCount`: the policy records the requested count. */
    method SetThreadCount(count: i32)
      modifies this
      ensures info == old(info).(numThreads := count)
      ensures calls == old(calls) + [ThreadCountSet(count)]
      ensures filters == old(filters) && freed == old(freed)
    {
      info := info.(numThreads := count);
      calls := calls + [ThreadCountSet(count)];
    }

    /**
      `createVideoFilter` / `createAudioFilter`: registers the filter, or,
      when the engine rejects it, writes the rejection into `out`.  The engine
      takes a C string and a C `int` count.
     */
    method RegisterIntoMap(out: VsMap, filter: RegisteredFilter, rejection: Option<Bytes>)
      requires Valid() && !HasNul(filter.name) && |filter.deps| <= I32_MAX
      modifies this, out
      ensures Valid()
      ensures filters == old(filters) + (if rejection.None? then [filter] else [])
      ensures out.error == (if rejection.Some? then rejection else old(out.error))
      ensures info == old(info) && calls == old(calls) && freed == old(freed)
    {
      if rejection.Some? {
        out.error := rejection;
      } else {
        filters := filters + [filter];
      }
    }

    /**
      `createVideoFilter2` / `createAudioFilter2`: registers the filter and
      returns its node, or returns null when the engine rejects it.
     */
    method Register(filter: RegisteredFilter, accept: bool) returns (node: Option<nat>)
      requires Valid() && !HasNul(filter.name) && |filter.deps| <= I32_MAX
      modifies this
      ensures Valid()
      ensures accept ==> node == Some(|old(filters)|) && filters == old(filters) + [filter]
      ensures !accept ==> node == None && filters == old(filters)
      ensures info == old(info) && calls == old(calls) && freed == old(freed)
    {
      if accept {
        node := Some(|filters|);
        filters := filters + [filter];
      } else {
        node := None;
      }
    }

    /** `getNodeType`: video exactly for a node registered with a video stream. */
    function NodeType(node: nat): (t: MediaType)
      reads this
      requires node < |filters|
      ensures t == MtVideo <==> filters[node].stream.VideoStream?
      ensures t == MtAudio <==> filters[node].stream.AudioStream?
    {
      if filters[node].stream.VideoStream? then MtVideo else MtAudio
    }

    /** `getVideoInfo`: defined only on a video node. */
    function NodeVideoInfo(node: nat): (vi: VideoInfo)
      reads this
      requires node < |filters| && NodeType(node) == MtVideo
      ensures filters[node].stream == VideoStream(vi)
    {
      filters[node].stream.video
    }

    /** `getAudioInfo`: defined only on an audio node. */
    function NodeAudioInfo(node: nat): (ai: AudioInfo)
      reads this
      requires node < |filters| && NodeType(node) == MtAudio
      ensures filters[node].stream == AudioStream(ai)
    {
      filters[node].stream.audio
    }
  }

  /** A `VSMap` used as an out parameter; only its error entry is modelled. */
  class VsMap {
    var error: Option<Bytes>

    constructor ()
      ensures error == None
    {
      error := None;
    }
  }

  /** The per-request `frame_data` cell, a pointer-sized value (0 for null). */
  class FrameDataSlot {
    var data: nat

    constructor ()
      ensures data == 0
    {
      data := 0;
    }
  }

  /** A `VSFrameContext`; only its filter-error slot is modelled. */
  class FrameContext {
    var filterError: Option<Bytes>

    constructor ()
      ensures filterError == None
    {
      filterError := None;
    }

    /** `setFilterError`. */
    method SetFilterError(message: Bytes)
      modifies this
      ensures filterError == Some(message)
    {
      filterError := Some(message);
    }
  }
}
