/** Media capture as the core sees it: a stream is a fixed array of track
    records, each with its kind, its `enabled` bit and its ready state. The
    `forEach` loops over a stream's tracks change the array in place. */
module Media {

  datatype TrackKind = Audio | Video
  datatype ReadyState = Live | Ended
  datatype Track = Track(kind: TrackKind, enabled: bool, readyState: ReadyState)

  /** What a `forEach` does to one track: flip `enabled` on the tracks of one
      kind (`getAudioTracks` / `getVideoTracks`), or `stop()` every track. */
  datatype TrackOp = ToggleEnabled(kind: TrackKind) | Stop

  function Apply(op: TrackOp, t: Track): Track {
    match op
    case ToggleEnabled(k) => if t.kind == k then t.(enabled := !t.enabled) else t
    case Stop => t.(readyState := Ended)
  }

  /** The track list after the operation has been applied to each track in turn. */
  function Applied(op: TrackOp, tracks: seq<Track>): seq<Track> {
    if tracks == [] then []
    else [Apply(op, tracks[0])] + Applied(op, tracks[1..])
  }

  /** The operation acts on each track separately and keeps the list's length. */
  lemma {:induction false} AppliedAt(op: TrackOp, tracks: seq<Track>, i: nat)
    requires i < |tracks|
    ensures |Applied(op, tracks)| == |tracks|
    ensures Applied(op, tracks)[i] == Apply(op, tracks[i])
  {
    if i > 0 {
      AppliedAt(op, tracks[1..], i - 1);
    } else {
      AppliedLength(op, tracks[1..]);
    }
  }

  lemma {:induction false} AppliedLength(op: TrackOp, tracks: seq<Track>)
    ensures |Applied(op, tracks)| == |tracks|
  {
    if tracks != [] {
      AppliedLength(op, tracks[1..]);
    }
  }

  /** Flipping the tracks of one kind changes only their `enabled` bit: the
      tracks of the other kind are untouched and every kind and ready state stays. */
  lemma ToggleTouchesOnlyItsKind(kind: TrackKind, tracks: seq<Track>, i: nat)
    requires i < |tracks|
    ensures var r := Applied(ToggleEnabled(kind), tracks);
            |r| == |tracks| &&
            r[i].kind == tracks[i].kind && r[i].readyState == tracks[i].readyState &&
            (tracks[i].kind == kind ==> r[i].enabled == !tracks[i].enabled) &&
            (tracks[i].kind != kind ==> r[i] == tracks[i])
  {
    AppliedAt(ToggleEnabled(kind), tracks, i);
  }

  /** Flipping the same kind twice restores every track. */
  lemma {:induction false} ToggleTwiceRestores(kind: TrackKind, tracks: seq<Track>)
    ensures Applied(ToggleEnabled(kind), Applied(ToggleEnabled(kind), tracks)) == tracks
  {
    if tracks != [] {
      ToggleTwiceRestores(kind, tracks[1..]);
    }
  }

  /** After stopping every track none is live; kinds and `enabled` bits stay. */
  lemma StopEndsEveryTrack(tracks: seq<Track>)
    ensures var r := Applied(Stop, tracks);
            |r| == |tracks| &&
            forall i :: 0 <= i < |r| ==> r[i].readyState == Ended && r[i].kind == tracks[i].kind && r[i].enabled == tracks[i].enabled
  {
    AppliedLength(Stop, tracks);
    forall i | 0 <= i < |tracks| ensures Applied(Stop, tracks)[i] == Apply(Stop, tracks[i]) {
      AppliedAt(Stop, tracks, i);
    }
  }

  /** `stream.getTracks().forEach(...)` (or the audio/video subset) run in place. */
  method ForEachTrack(stream: array<Track>, op: TrackOp)
    modifies stream
    ensures stream[..] == Applied(op, old(stream[..]))
  {
    var i := 0;
    while i < stream.Length
      invariant 0 <= i <= stream.Length
      invariant forall j :: 0 <= j < i ==> stream[j] == Apply(op, old(stream[j]))
      invariant forall j :: i <= j < stream.Length ==> stream[j] == old(stream[j])
    {
      stream[i] := Apply(op, stream[i]);
      i := i + 1;
    }
    ghost var was := old(stream[..]);
    AppliedLength(op, was);
    forall j | 0 <= j < stream.Length ensures stream[..][j] == Applied(op, was)[j] {
      AppliedAt(op, was, j);
    }
  }
}
