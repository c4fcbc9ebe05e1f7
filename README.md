# vapoursynth4-rs: a Dafny model of the binding's own logic

vapoursynth4-rs is a Rust binding over the VapourSynth C API. Nearly every
method forwards to the engine's function-pointer table. This project models
the logic the binding adds on top of that table and proves what it promises:

- `CoreBuilder` (core.rs): creation-flag bits are ORed in. The optional
  cache size and thread count are recorded. `build` creates a core with
  exactly those flags and applies only the settings that were set, cache
  size first.
- The v1 registration path `Core::create_video_filter` /
  `create_audio_filter` (core.rs). It checks the name for a NUL byte,
  then checks that the dependency count fits a C `int`. Only then does the
  engine register the filter. An error the engine writes into the out map
  becomes the result.
- The v2 registration path `NodeRef::new_video` / `new_audio` (node.rs).
  A NUL in the name gives `None`. Too many dependencies panics in `unwrap`.
  A null node from the engine gives `None`.
- The activation callback `filter_get_frame`. It maps the user's outcome
  (frame, no frame, error, panic) to a returned frame or null, plus an
  error recorded on the frame context. The teardown callback `filter_free`
  reclaims the instance once and runs the user's `free`.
- `NodeRef::get_info` (tagged by media type), `NodeRef::get_frame` (reads
  the engine's message out of a 1024-byte buffer), and the
  `FilterMode`/`CacheMode` to C-tag mappings.

## The engine

The engine is an opaque collaborator, modelled in `engine.dfy`:

- A `VsCore` holds its creation flags, its resource policy (`CoreInfo`) and
  the trace of configuration calls made on it.
- It also holds the registry of filters and the instances passed to user
  `free`.
- A `VsMap` has one error slot, and a `FrameContext` has one filter-error
  slot.
- A `FrameDataSlot` is the per-request `frame_data` cell, one
  pointer-sized value.

Whatever the engine decides on its own becomes a parameter of the call:

- `EngineDefaults`: the policy `createCore` picks.
- `rejection` / `accept`: whether it refuses a registration.
- `FrameReply`: what `getFrame` produced.
- `getFrame`: what the user's `get_frame` did. It yields a
  `UserActivation`: the value it stored in the `frame_data` slot, the error
  it set on its frame context, and its outcome.

The engine is assumed to:

- record the cache size and thread count it is given;
- register nothing when it rejects;
- write the v1 rejection into the out map;
- let a later `setFilterError` on a frame context replace an earlier one.

Its `VsCore.Valid()` invariant says every registered filter has a NUL-free
name and at most `i32::MAX` dependencies. Every registration method of the
binding keeps it.

Text is bytes (`Vs.Bytes`). The C constants are those of VapourSynth4.h,
which is not part of this model:

- `VSFilterMode`: 0..3.
- `VSCacheMode`: -1/0/1.
- Creation flags: 1, 2 and 4.

## Model

| member | source | states |
|---|---|---|
| `CStrings.FirstNul` | vapoursynth4-rs/src/core.rs:114 | finds the first NUL byte: none exactly when the name has no NUL; no NUL before the one found |
| `CStrings.CStringNew` | vapoursynth4-rs/src/core.rs:114 | `CString::new` succeeds, keeping the bytes, exactly when there is no NUL byte; otherwise it reports the position of the first NUL |
| `CStrings.ReadCStr` | vapoursynth4-rs/src/node.rs:167 | `CStr::from_ptr` yields the NUL-free prefix before the first NUL of the buffer |
| `CStrings.ReadCStrOfPadded` | vapoursynth4-rs/src/node.rs:162-169 | a NUL-free text written into a zeroed buffer reads back unchanged |
| `Filters.FilterModeToVs` | vapoursynth4-rs/src/node.rs:224-236 | the `FilterMode` to `VSFilterMode` mapping keeps the discriminant (0..3) |
| `Filters.FilterModeFromVs` | vapoursynth4-rs/src/node.rs:224-236 | every C filter mode is the image of a Rust mode, so the mapping is onto |
| `Filters.FilterModeToVsInjective` | vapoursynth4-rs/src/node.rs:224-236 | distinct Rust filter modes map to distinct C tags |
| `Filters.CacheModeToVs` | vapoursynth4-rs/src/node.rs:238-260 | the `CacheMode` to `VSCacheMode` mapping keeps the discriminants Auto=-1, ForceDisable=0, ForceEnable=1 |
| `Filters.CacheModeToVsInjective` | vapoursynth4-rs/src/node.rs:249-260 | distinct cache modes map to distinct C tags |
| `Filters.FilterModeOf` | vapoursynth4-rs/src/node.rs:262-267 | `FILTER_MODE` is `Parallel` unless the filter type overrides it |
| `Filters.ActivationReplyOf` | vapoursynth4-rs/src/node.rs:296-315 | a frame is returned exactly when the user returned `Ok(Some(frame))`, and then it is that frame and no error is recorded; `Err(e)` records `e`, a `&str` panic records its text, `Ok(None)` records nothing and returns null |
| `Filters.NullReplyCases` | vapoursynth4-rs/src/node.rs:305-315 | null is returned exactly when an error is recorded or the user returned `Ok(None)` |
| `FilterExtern.FilterGetFrame` | vapoursynth4-rs/src/node.rs:281-316 | runs the user's `get_frame` with the same frame number, reason and `frame_data` slot; keeps what the user stored in the slot and any error it set on the context; then returns the reply's frame unreleased, and records the reply's error on the context exactly when there is one |
| `FilterExtern.FilterFree` | vapoursynth4-rs/src/node.rs:318-329 | a live instance is reclaimed, marked no longer live and passed once to the user's `free`; nothing else changes |
| `Cores.RegistrationPrecheck` | vapoursynth4-rs/src/core.rs:113-126 | `InvalidName` exactly when the name has a NUL; `TooMuchDependency` exactly when the name is valid and the count exceeds `i32::MAX`; the name check comes first |
| `Cores.AudioRegistrationPrecheck` | vapoursynth4-rs/src/core.rs:153-168 | the same checks, failing with "Invalid name" and "dependencies len is larger than i32::MAX" |
| `Cores.FilterRecord` | vapoursynth4-rs/src/core.rs:115-129 | what is registered: the name, stream, dependencies and instance given, with the C tag of `F::FILTER_MODE` (`fmParallel` by default) |
| `Cores.Core.New` | vapoursynth4-rs/src/core.rs:59-61 | `Core::new()` creates a core with flags 0 and no filters |
| `Cores.Core.NewWith` | vapoursynth4-rs/src/core.rs:63-69 | creates a core with exactly the given flags |
| `Cores.Core.Default` | vapoursynth4-rs/src/core.rs:366-370 | `Default` is `Core::new()`: flags 0 |
| `Cores.Core.Info` | vapoursynth4-rs/src/core.rs:93-100 | `get_info` reports the engine's current cache size and thread count |
| `Cores.Core.SetMaxCacheSize` | vapoursynth4-rs/src/core.rs:81-85 | the reported cache size becomes the given size; the call is appended to the trace; nothing else changes |
| `Cores.Core.SetThreadCount` | vapoursynth4-rs/src/core.rs:87-91 | the reported thread count becomes the given count; the call is appended to the trace; nothing else changes |
| `Cores.Core.CreateVideoFilter` | vapoursynth4-rs/src/core.rs:105-139 | a failed check returns its error and leaves the engine and the map unchanged; otherwise exactly one filter is registered unless the engine rejects; `Err(Internal(msg))` exactly when the out map then holds `msg` |
| `Cores.Core.CreateAudioFilter` | vapoursynth4-rs/src/core.rs:144-178 | the same, with the fixed messages of the checks and the map's error returned as it is |
| `Cores.WithFlag` | vapoursynth4-rs/src/core.rs:406-419 | ORing a creation flag sets that bit and changes no other bit |
| `Cores.WithFlagKeepsBits` | vapoursynth4-rs/src/core.rs:406-419 | setting a flag never clears a bit |
| `Cores.WithFlagIdempotent` | vapoursynth4-rs/src/core.rs:406-419 | setting a flag twice equals setting it once |
| `Cores.BuildCalls` | vapoursynth4-rs/src/core.rs:395-404 | the settings `build` applies: the cache size only if set, the thread count only if set, cache size first |
| `Cores.CoreBuilder.constructor` | vapoursynth4-rs/src/core.rs:380-392 | a new builder has flags 0 and no setting |
| `Cores.CoreBuilder.EnableGraphInspection` | vapoursynth4-rs/src/core.rs:406-409 | ORs in `ccfEnableGraphInspection`; the other fields are unchanged |
| `Cores.CoreBuilder.DisableAutoLoading` | vapoursynth4-rs/src/core.rs:411-414 | ORs in `ccfDisableAutoLoading`; the other fields are unchanged |
| `Cores.CoreBuilder.DisableLibraryUnloading` | vapoursynth4-rs/src/core.rs:416-419 | ORs in `ccfDisableLibraryUnloading`; the other fields are unchanged |
| `Cores.CoreBuilder.MaxCacheSize` | vapoursynth4-rs/src/core.rs:421-424 | sets the cache size to `Some(size)`, so the last call wins; the other fields are unchanged |
| `Cores.CoreBuilder.ThreadCount` | vapoursynth4-rs/src/core.rs:426-429 | sets the thread count to `Some(count)`, so the last call wins; the other fields are unchanged |
| `Cores.CoreBuilder.Api` | vapoursynth4-rs/src/core.rs:431-434 | records the API handle; the other fields are unchanged |
| `Cores.CoreBuilder.Build` | vapoursynth4-rs/src/core.rs:395-404 | a fresh core with exactly the builder's flags; the cache size and thread count are the set values or the engine defaults; the calls made are `BuildCalls` |
| `Cores.BuilderScenario` | vapoursynth4-rs/src/core.rs:448-459 | the crate's builder chain gives a core with all three flags, `maxFramebufferSize == 1024` and `numThreads == 4` |
| `Engine.VsCore.NodeType` | vapoursynth4-rs/src/node.rs:48-52 | the engine's `getNodeType`: video exactly for a node registered with a video stream, audio exactly for an audio one |
| `Engine.VsCore.NodeVideoInfo` | vapoursynth4-rs/src/node.rs:54-61 | the engine's `getVideoInfo`: callable only on a video node (undefined behaviour otherwise), giving its registered video description |
| `Engine.VsCore.NodeAudioInfo` | vapoursynth4-rs/src/node.rs:63-70 | the engine's `getAudioInfo`: callable only on an audio node (undefined behaviour otherwise), giving its registered audio description |
| `Nodes.NodeRef.GetType` | vapoursynth4-rs/src/node.rs:48-52 | `get_type` is Video exactly for a node registered with a video stream and Audio exactly for an audio one |
| `Nodes.NodeRef.GetInfo` | vapoursynth4-rs/src/node.rs:72-79 | `Info::Video` exactly when `get_type` is Video and `Info::Audio` exactly when it is Audio, carrying the registered stream description |
| `Nodes.ErrorBuffer` | vapoursynth4-rs/src/node.rs:162-163 | the 1024-byte zeroed buffer, holding what the engine wrote |
| `Nodes.NodeRef.GetFrame` | vapoursynth4-rs/src/node.rs:161-173 | `Ok(frame)` exactly when the engine returned a frame; otherwise `Err` of the engine's text up to its first NUL |
| `Nodes.GetFrameReportsMessage` | vapoursynth4-rs/src/node.rs:161-173 | a NUL-free engine message shorter than the buffer is reported exactly |
| `Nodes.NewNode` | vapoursynth4-rs/src/node.rs:91-111 | NUL in the name: `None`, engine not called; too many dependencies: a panic, nothing registered; otherwise the new node when the engine accepts (one filter registered), `None` when it returns null |
| `Nodes.NewVideo` | vapoursynth4-rs/src/node.rs:81-112 | as `NewNode`; a node it returns reports `Info::Video` of the given info |
| `Nodes.NewAudio` | vapoursynth4-rs/src/node.rs:114-145 | as `NewNode`; a node it returns reports `Info::Audio` of the given info |

## Left out

- Pure forwarding calls: the frame factories (`new_video_frame`,
  `new_video_frame2`, `new_audio_frame`, `new_audio_frame2`, `copy_frame`),
  the format queries, `create_function`, `log`, `set_linear_filter`,
  `set_cache_mode` and `set_cache_options`. Their behaviour is the
  engine's. `Core::get_info` is modelled as `Core.Info`, reduced to the
  cache size and thread count.
- The engine's own behaviour: its defaults and its thread pool. The model
  assumes the engine records every cache size and thread count unchanged,
  including zero and negative values, whose real treatment is the engine's
  (see "The engine").
- Scheduling guarantees of the filter modes. `get_frame_async` is `todo!()`.
  Reference counting behind `Clone`/`Drop` of nodes, frames and cores is
  engine-owned state.
- `CoreRef`, `Deref`/`DerefMut`, `as_ptr`/`from_ptr` and the thread binding
  of `ApiRef::set` are pointer plumbing. `CoreBuilder::build` does not read
  its `api` field, and the model does the same.
- The `catch_unwind` mechanism. A panic is an outcome value carrying its
  payload.
- FilterExtern.FilterGetFrame: what the user's `get_frame` does through the
  core it is handed (registering filters, creating frames) is not modelled.
  Only its `frame_data` store and the error it sets on its frame context are.
- FilterExtern.FilterGetFrame: frame reference counts are not modelled. The
  ownership transfer on success is shown only by returning the same pointer
  and by the method changing nothing but the slot and the context.
- FilterExtern.FilterGetFrame: the clause saying which error the context
  holds rests on the engine's `setFilterError` replacing an earlier error.
  That function is not part of this model. If the user sets an error and
  then returns `Err` or panics, the model says the later text survives.
- FilterExtern.FilterGetFrame: requires the panic payload to be a `&str`.
  The source downcasts it with `unwrap_unchecked`, which is undefined
  behaviour for any other payload (a formatted panic carries a `String`).
- `utils.rs` (`into_cstring_lossy`) is not part of this model. The panic
  text is recorded unchanged.
- Cores.Core.CreateVideoFilter: `String::from_utf8_lossy` is modelled as
  the identity on bytes. Invalid UTF-8 is not replaced.
- Nodes.NodeRef.GetFrame: `to_string_lossy` is modelled as the identity on
  bytes. Its requires states that the engine leaves a NUL inside the
  buffer, which `CStr::from_ptr` needs.
- Nodes.NodeRef.GetFrame: on the error path the source wraps the buffer in
  `ManuallyDrop`, so its 1024 bytes are never freed. The model does not
  track allocations.
- Dropping the boxed filter when a check fails is not modelled. That is an
  ordinary Rust drop, not the user's `free`.
- Whether the engine calls `free` for a filter whose registration it
  rejected is not modelled, on either path. The model assumes it does not:
  `Cores.Core.CreateVideoFilter`, `Cores.Core.CreateAudioFilter` and
  `Nodes.NewNode` leave the freed trace unchanged when the engine rejects,
  both for the v1 out-map path and for a null v2 result.
- Cores.Core.CreateVideoFilter: the result reflects the out map's error
  after the call. An error already in the map before a successful
  registration also gives `Err`, as the source does.
- The build script `vapoursynth4-sys/build.rs` only configures the linker.
