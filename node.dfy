/**
  node.rs: the `NodeRef` handle — its tagged `get_info` accessor, the
  synchronous `get_frame` pull with its 1024-byte error buffer, and the v2
  registration path `new_video` / `new_audio`.
 */
module Nodes {
  import opened Vs
  import opened Wrappers
  import opened CStrings
  import opened Filters
  import opened Engine
  import opened Cores

  /** The metadata of a node, tagged by its media type. */
  datatype Info = Video(video: VideoInfo) | Audio(audio: AudioInfo)

  /** What the engine's `getFrame` did: returned a frame, or returned null after writing into the error buffer. */
  datatype FrameReply = Delivered(frame: Frame) | Failed(written: Bytes)

  /** The size of the error buffer `get_frame` hands to the engine. */
  const ERROR_BUFFER_SIZE: nat := 1024

  /** The error buffer after the engine wrote `written` into a zeroed buffer. */
  function ErrorBuffer(written: Bytes): (buf: Bytes)
    requires |written| <= ERROR_BUFFER_SIZE
    ensures |buf| == ERROR_BUFFER_SIZE
    ensures buf[..|written|] == written
    ensures forall i :: |written| <= i < ERROR_BUFFER_SIZE ==> buf[i] == 0
  {
    written + seq(ERROR_BUFFER_SIZE - |written|, _ => 0)
  }

  /** The engine leaves a NUL inside the buffer, as `CStr::from_ptr` needs. */
  ghost predicate TerminatedReply(reply: FrameReply) {
    reply.Failed? ==> |reply.written| <= ERROR_BUFFER_SIZE && (|reply.written| < ERROR_BUFFER_SIZE || HasNul(reply.written))
  }

  /** A handle to a node of the graph; `handle` locates it in its core's registry. */
  datatype NodeRef = NodeRef(handle: nat) {

    /** `get_type`: the media type of the stream the node was registered with. */
    function GetType(core: VsCore): (t: MediaType)
      reads core
      requires handle < |core.filters|
      ensures t == MtVideo <==> core.filters[handle].stream.VideoStream?
      ensures t == MtAudio <==> core.filters[handle].stream.AudioStream?
    {
      core.NodeType(handle)
    }

    /**
      `get_info`: the video metadata exactly when the node is a video node,
      the audio metadata exactly when it is an audio node; in both cases the
      stream description the node was registered with.
     */
    function GetInfo(core: VsCore): (r: Info)
      reads core
      requires handle < |core.filters|
      ensures r.Video? <==> GetType(core) == MtVideo
      ensures r.Audio? <==> GetType(core) == MtAudio
      ensures r.Video? ==> core.filters[handle].stream == VideoStream(r.video)
      ensures r.Audio? ==> core.filters[handle].stream == AudioStream(r.audio)
    {
      match GetType(core)
      case MtVideo => Video(core.NodeVideoInfo(handle))
      case MtAudio => Audio(core.NodeAudioInfo(handle))
    }

    /**
      `get_frame(n)`, given the engine's `reply` for frame `n`: the frame when
      one was returned, otherwise the text the engine wrote into the error
      buffer, up to its first NUL.
     */
    function GetFrame(n: i32, reply: FrameReply): (r: Result<Frame, Bytes>)
      requires TerminatedReply(reply)
      ensures r.Ok? <==> reply.Delivered?
      ensures r.Ok? ==> r.value == reply.frame
      ensures r.Err? ==> !HasNul(r.error) && |r.error| <= |reply.written| && r.error == reply.written[..|r.error|]
      ensures r.Err? && |r.error| < |reply.written| ==> reply.written[|r.error|] == 0
    {
      match reply
      case Delivered(frame) => Ok(frame)
      case Failed(written) =>
        var buf := ErrorBuffer(written);
        assert HasNul(buf) by {
          if |written| < ERROR_BUFFER_SIZE {
            assert buf[|written|] == 0;
          } else {
            var k :| 0 <= k < |written| && written[k] == 0;
            assert buf[k] == written[k];
          }
        }
        var text := ReadCStr(buf);
        assert |written| < ERROR_BUFFER_SIZE ==> buf[|written|] == 0;
        assert |text| <= |written|;
        assert text == written[..|text|] by {
          assert buf[..|written|] == written;
          assert text == buf[..|text|];
        }
        Err(text)
    }
  }

  /** A NUL-free message shorter than the buffer is reported exactly. */
  lemma {:induction false} GetFrameReportsMessage(node: NodeRef, n: i32, message: Bytes)
    requires !HasNul(message) && |message| < ERROR_BUFFER_SIZE
    ensures node.GetFrame(n, Failed(message)) == Err(message)
  {
    var r := node.GetFrame(n, Failed(message));
    assert |r.error| == |message|;
  }

  const UNWRAP_PANIC_MESSAGE: Bytes := Ascii("called `Result::unwrap()` on an `Err` value: TryFromIntError(())")

  /**
    `new_video` / `new_audio`, shared by both: a name with a NUL byte gives
    `None` and the engine is not called; then a dependency count beyond a C
    `int` panics in `unwrap`; otherwise the engine registers the filter and
    returns its node, or returns null, which gives `None`.
   */
  method NewNode(name: Bytes, stream: StreamInfo, filter: FilterInstance, deps: seq<FilterDependency>, core: Core, accept: bool)
    returns (r: Unwind<Option<NodeRef>>)
    requires core.handle.Valid()
    modifies core.handle
    ensures core.handle.Valid()
    ensures HasNul(name) ==> r == Returned(None) && unchanged(core.handle)
    ensures !HasNul(name) && |deps| > I32_MAX ==>
      r == Panicked(StringPayload(UNWRAP_PANIC_MESSAGE)) && unchanged(core.handle)
    ensures !HasNul(name) && |deps| <= I32_MAX && accept ==>
      && r == Returned(Some(NodeRef(|old(core.handle.filters)|)))
      && core.handle.filters == old(core.handle.filters) + [FilterRecord(name, stream, filter, deps)]
    ensures !HasNul(name) && |deps| <= I32_MAX && !accept ==>
      r == Returned(None) && core.handle.filters == old(core.handle.filters)
    ensures core.handle.info == old(core.handle.info) && core.handle.calls == old(core.handle.calls)
    ensures core.handle.freed == old(core.handle.freed)
  {
    var cname := CStringNew(name);
    if cname.Err? {
      return Returned(None);
    }
    if |deps| > I32_MAX {
      return Panicked(StringPayload(UNWRAP_PANIC_MESSAGE));
    }
    var node := core.handle.Register(FilterRecord(cname.value, stream, filter, deps), accept);
    if node.None? {
      return Returned(None);
    }
    return Returned(Some(NodeRef(node.value)));
  }

  /** `new_video`: a node it returns reports the video metadata it was given. */
  method NewVideo(name: Bytes, info: VideoInfo, filter: FilterInstance, deps: seq<FilterDependency>, core: Core, accept: bool)
    returns (r: Unwind<Option<NodeRef>>)
    requires core.handle.Valid()
    modifies core.handle
    ensures core.handle.Valid()
    ensures HasNul(name) ==> r == Returned(None) && unchanged(core.handle)
    ensures !HasNul(name) && |deps| > I32_MAX ==>
      r == Panicked(StringPayload(UNWRAP_PANIC_MESSAGE)) && unchanged(core.handle)
    ensures !HasNul(name) && |deps| <= I32_MAX && accept ==>
      && r == Returned(Some(NodeRef(|old(core.handle.filters)|)))
      && core.handle.filters == old(core.handle.filters) + [FilterRecord(name, VideoStream(info), filter, deps)]
    ensures !HasNul(name) && |deps| <= I32_MAX && !accept ==>
      r == Returned(None) && core.handle.filters == old(core.handle.filters)
    ensures r.Returned? && r.result.Some? ==>
      r.result.value.handle < |core.handle.filters| && r.result.value.GetInfo(core.handle) == Video(info)
    ensures core.handle.info == old(core.handle.info) && core.handle.calls == old(core.handle.calls)
    ensures core.handle.freed == old(core.handle.freed)
  {
    r := NewNode(name, VideoStream(info), filter, deps, core, accept);
  }

  /** `new_audio`: a node it returns reports the audio metadata it was given. */
  method NewAudio(name: Bytes, info: AudioInfo, filter: FilterInstance, deps: seq<FilterDependency>, core: Core, accept: bool)
    returns (r: Unwind<Option<NodeRef>>)
    requires core.handle.Valid()
    modifies core.handle
    ensures core.handle.Valid()
    ensures HasNul(name) ==> r == Returned(None) && unchanged(core.handle)
    ensures !HasNul(name) && |deps| > I32_MAX ==>
      r == Panicked(StringPayload(UNWRAP_PANIC_MESSAGE)) && unchanged(core.handle)
    ensures !HasNul(name) && |deps| <= I32_MAX && accept ==>
      && r == Returned(Some(NodeRef(|old(core.handle.filters)|)))
      && core.handle.filters == old(core.handle.filters) + [FilterRecord(name, AudioStream(info), filter, deps)]
    ensures !HasNul(name) && |deps| <= I32_MAX && !accept ==>
      r == Returned(None) && core.handle.filters == old(core.handle.filters)
    ensures r.Returned? && r.result.Some? ==>
      r.result.value.handle < |core.handle.filters| && r.result.value.GetInfo(core.handle) == Audio(info)
    ensures core.handle.info == old(core.handle.info) && core.handle.calls == old(core.handle.calls)
    ensures core.handle.freed == old(core.handle.freed)
  {
    r := NewNode(name, AudioStream(info), filter, deps, core, accept);
  }
}
