/** The call controls of `components/CallView.tsx`: the mute and camera flags,
    the local stream acquired on mount, the in-place flips of the tracks'
    `enabled` bits and the cleanup that stops every track. */
module CallView {
  import opened Media

  class CallSession {
    var isMuted: bool
    var isCameraOff: bool
    /** `localStream.current`: `null` until the stream is acquired. */
    var localStream: array?<Track>

    /** A call starts unmuted, with the camera on and no stream yet. */
    constructor ()
      ensures !isMuted && !isCameraOff && localStream == null
    {
      isMuted, isCameraOff, localStream := false, false, null;
    }

    /** `startStream`: `acquired` is what `getUserMedia` resolved to, `null`
        when it was rejected. A rejection stores no stream and calls `onEndCall`,
        which is reported through `endCall`. */
    method StartStream(acquired: array?<Track>) returns (endCall: bool)
      modifies this
      ensures isMuted == old(isMuted) && isCameraOff == old(isCameraOff)
      ensures endCall <==> acquired == null
      ensures localStream == if acquired == null then old(localStream) else acquired
    {
      if acquired == null {
        endCall := true;
      } else {
        localStream := acquired;
        endCall := false;
      }
    }

    /** `toggleMute`: flips `isMuted` and the `enabled` bit of every audio track;
        with no stream only the flag changes. */
    method ToggleMute()
      modifies this, localStream
      ensures isMuted == !old(isMuted) && isCameraOff == old(isCameraOff)
      ensures localStream == old(localStream)
      ensures localStream != null ==> localStream[..] == Applied(ToggleEnabled(Audio), old(localStream[..]))
    {
      if localStream != null {
        ForEachTrack(localStream, ToggleEnabled(Audio));
      }
      isMuted := !isMuted;
    }

    /** `toggleCamera`: flips `isCameraOff` and the `enabled` bit of every video
        track; with no stream only the flag changes. */
    method ToggleCamera()
      modifies this, localStream
      ensures isCameraOff == !old(isCameraOff) && isMuted == old(isMuted)
      ensures localStream == old(localStream)
      ensures localStream != null ==> localStream[..] == Applied(ToggleEnabled(Video), old(localStream[..]))
    {
      if localStream != null {
        ForEachTrack(localStream, ToggleEnabled(Video));
      }
      isCameraOff := !isCameraOff;
    }

    /** The effect cleanup: every track of the acquired stream is stopped,
        whatever the flags say. */
    method Teardown()
      modifies localStream
      ensures localStream != null ==> localStream[..] == Applied(Stop, old(localStream[..]))
    {
      if localStream != null {
        ForEachTrack(localStream, Stop);
      }
    }
  }

  /** A call toggled twice on either control is back where it was, flags and
      tracks alike, and a torn-down call has no live track. */
  method ToggleTwiceAndHangUp(call: CallSession)
    modifies call, call.localStream
    ensures call.isMuted == old(call.isMuted) && call.isCameraOff == old(call.isCameraOff)
    ensures call.localStream == old(call.localStream)
    ensures call.localStream != null ==> call.localStream[..] == Applied(Stop, old(call.localStream[..]))
    ensures call.localStream != null ==>
              forall i :: 0 <= i < call.localStream.Length ==> call.localStream[i].readyState == Ended
  {
    ghost var before := if call.localStream == null then [] else call.localStream[..];
    call.ToggleMute();
    call.ToggleMute();
    call.ToggleCamera();
    call.ToggleCamera();
    if call.localStream != null {
      ToggleTwiceRestores(Audio, before);
      ToggleTwiceRestores(Video, before);
      assert call.localStream[..] == before;
    }
    call.Teardown();
    if call.localStream != null {
      StopEndsEveryTrack(before);
      assert forall i :: 0 <= i < call.localStream.Length ==> call.localStream[..][i].readyState == Ended;
    }
  }
}
