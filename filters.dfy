/**
  The filter side of node.rs: the Rust `FilterMode` and `CacheMode` enums and
  their translations to the C tags, the `Filter` capability a user type
  provides, and the translation of what a user `get_frame` did into what the
  activation callback hands back to the engine.
 */
module Filters {
  import opened Vs
  import opened Wrappers

  /** The Rust concurrency mode; its implicit discriminants are 0..3. */
  datatype FilterMode = Parallel | ParallelRequests | Unordered | FrameState {
    function Discriminant(): int {
      match this
      case Parallel => 0
      case ParallelRequests => 1
      case Unordered => 2
      case FrameState => 3
    }
  }

  /** `From<FilterMode> for VSFilterMode`: the mapping keeps the discriminant. */
  function FilterModeToVs(m: FilterMode): (r: VSFilterMode)
    ensures r.Value() == m.Discriminant()
  {
    match m
    case Parallel => FmParallel
    case ParallelRequests => FmParallelRequests
    case Unordered => FmUnordered
    case FrameState => FmFrameState
  }

  /** The reverse reading of a C filter-mode tag. */
  function FilterModeFromVs(v: VSFilterMode): (m: FilterMode)
    ensures FilterModeToVs(m) == v
  {
    match v
    case FmParallel => Parallel
    case FmParallelRequests => ParallelRequests
    case FmUnordered => Unordered
    case FmFrameState => FrameState
  }

  /** The filter-mode mapping is injective (and onto, by FilterModeFromVs). */
  lemma FilterModeToVsInjective(a: FilterMode, b: FilterMode)
    requires FilterModeToVs(a) == FilterModeToVs(b)
    ensures a == b
  {
    assert a.Discriminant() == b.Discriminant();
  }

  /** The Rust cache mode with its explicit discriminants. */
  datatype CacheMode = Auto | ForceDisable | ForceEnable {
    function Discriminant(): int {
      match this
      case Auto => -1
      case ForceDisable => 0
      case ForceEnable => 1
    }
  }

  /** `From<CacheMode> for VSCacheMode`: the mapping keeps the discriminant. */
  function CacheModeToVs(m: CacheMode): (r: VSCacheMode)
    ensures r.Value() == m.Discriminant()
  {
    match m
    case Auto => CmAuto
    case ForceDisable => CmForceDisable
    case ForceEnable => CmForceEnable
  }

  /** The cache-mode mapping is injective. */
  lemma CacheModeToVsInjective(a: CacheMode, b: CacheMode)
    requires CacheModeToVs(a) == CacheModeToVs(b)
    ensures a == b
  {
    assert a.Discriminant() == b.Discriminant();
  }

  /**
    A type implementing `Filter`: its `FILTER_MODE` constant is either left at
    the trait's default or overridden.
   */
  datatype FilterType = FilterType(modeOverride: Option<FilterMode>)

  /** `F::FILTER_MODE`: the override, or `Parallel` by default. */
  function FilterModeOf(t: FilterType): (m: FilterMode)
    ensures t.modeOverride.None? ==> m == Parallel
    ensures t.modeOverride.Some? ==> m == t.modeOverride.value
  {
    t.modeOverride.GetOr(Parallel)
  }

  /** A boxed user filter value: its type, and the state it carries. */
  datatype FilterInstance = FilterInstance(ty: FilterType, state: nat)

  /**
    The payload of a panic.  `panic!("literal")` carries a `&str`; a formatted
    panic such as the one `unwrap` raises carries a `String`.
   */
  datatype PanicPayload = StrPayload(text: Bytes) | StringPayload(text: Bytes) | OtherPayload

  /** What running Rust code under `catch_unwind` produced: a value, or a panic. */
  datatype Unwind<+T> = Returned(result: T) | Panicked(payload: PanicPayload)

  /** What a user `get_frame` produced: a frame, no frame, its error text, or a panic. */
  type GetFrameOutcome = Unwind<Result<Option<Frame>, Bytes>>

  /**
    What one run of the user's `get_frame` did: the value it left in the
    per-request `frame_data` slot (`None` when it did not write it), the last
    filter error it set itself through the frame context it was given, and
    its outcome.
   */
  datatype UserActivation = UserActivation(storedData: Option<nat>, contextError: Option<Bytes>, outcome: GetFrameOutcome)

  /**
    What `filter_get_frame` hands back: the frame pointer it returns (`None`
    for null) and the filter error it records on the frame context, if any.
   */
  datatype ActivationReply = ActivationReply(frame: Option<Frame>, error: Option<Bytes>)

  /** The user's outcome produced a frame. */
  predicate ProducedFrame(o: GetFrameOutcome) {
    o.Returned? && o.result.Ok? && o.result.value.Some?
  }

  /**
    The outcome match of `filter_get_frame`.  The panic payload is downcast to
    `&str` unchecked, so a payload of another type is excluded.
   */
  function ActivationReplyOf(o: GetFrameOutcome): (r: ActivationReply)
    requires o.Panicked? ==> o.payload.StrPayload?
    ensures r.frame.Some? <==> ProducedFrame(o)
    ensures ProducedFrame(o) ==> r.frame == o.result.value
    ensures r.frame.Some? ==> r.error.None?
    ensures o.Returned? && o.result.Err? ==> r.error == Some(o.result.error)
    ensures o.Panicked? ==> r.error == Some(o.payload.text)
    ensures o == Returned(Ok(None)) ==> r == ActivationReply(None, None)
  {
    match o
    case Returned(Ok(Some(frame))) => ActivationReply(Some(frame), None)
    case Returned(Err(e)) => ActivationReply(None, Some(e))
    case Panicked(p) => ActivationReply(None, Some(p.text))
    case Returned(Ok(None)) => ActivationReply(None, None)
  }

  /** Null is returned exactly when an error was recorded or the filter produced nothing. */
  lemma NullReplyCases(o: GetFrameOutcome)
    requires o.Panicked? ==> o.payload.StrPayload?
    ensures ActivationReplyOf(o).frame.None? <==> ActivationReplyOf(o).error.Some? || o == Returned(Ok(None))
  {
  }
}
