/**
  The C-level types and constants of the VapourSynth API that the binding
  passes across the boundary (the raw `ffi` bindings).  The numeric values are
  those of the VapourSynth4.h header.
 */
module Vs {

  newtype byte = b: int | 0 <= b < 256

  /** Text crossing the boundary is bytes. */
  type Bytes = seq<byte>

  type i32 = x: int | -0x8000_0000 <= x < 0x8000_0000
  type i64 = x: int | -0x8000_0000_0000_0000 <= x < 0x8000_0000_0000_0000

  /** The largest value of a C `int`, the width of every count the API takes. */
  const I32_MAX: int := 0x7fff_ffff

  /** VSCoreCreationFlags; the core keeps them as the bit pattern of an `int`. */
  const CCF_ENABLE_GRAPH_INSPECTION: bv32 := 1
  const CCF_DISABLE_AUTO_LOADING: bv32 := 2
  const CCF_DISABLE_LIBRARY_UNLOADING: bv32 := 4

  /** VSFilterMode. */
  datatype VSFilterMode = FmParallel | FmParallelRequests | FmUnordered | FmFrameState {
    function Value(): int {
      match this
      case FmParallel => 0
      case FmParallelRequests => 1
      case FmUnordered => 2
      case FmFrameState => 3
    }
  }

  /** VSCacheMode. */
  datatype VSCacheMode = CmAuto | CmForceDisable | CmForceEnable {
    function Value(): int {
      match this
      case CmAuto => -1
      case CmForceDisable => 0
      case CmForceEnable => 1
    }
  }

  /** VSActivationReason. */
  datatype VSActivationReason = ArError | ArInitial | ArAllFramesReady

  /** The media type a node reports. */
  datatype MediaType = MtVideo | MtAudio

  /** VSVideoInfo and VSAudioInfo, reduced to the fields that identify a stream. */
  datatype VideoInfo = VideoInfo(formatId: nat, fpsNum: int, fpsDen: int, width: int, height: int, numFrames: int)
  datatype AudioInfo = AudioInfo(formatId: nat, sampleRate: int, numSamples: int, numFrames: int)

  /** VSRequestPattern and VSFilterDependency: an upstream node and how it is requested. */
  datatype RequestPattern = RpGeneral | RpNoFrameReuse | RpStrictSpatial
  datatype FilterDependency = FilterDependency(source: nat, pattern: RequestPattern)

  /** A non-null `VSFrame` pointer; a null pointer is `None` of an Option. */
  datatype Frame = Frame(address: nat)
}
