/**
  The recorder hook: a recording is started on the microphone stream,
  stopped on request, and when the recorder reports that it has stopped its
  audio is decoded and appended to the track list as a new track. The
  MediaRecorder, its blobs and the decoder are outside the model: a chunk is
  its size, decoding is a parameter that yields a buffer or fails, and the
  two `Date.now()` readings are parameters.
 */
module Recorder {
  import opened Common
  import opened TrackList

  /** The track a finished recording becomes: `track-<time>`, named after the number of
      tracks there were when the recording was started. */
  function RecordedTrack(capturedCount: nat, buffer: nat, idTime: int, timestamp: int): (t: Track)
    ensures t.buffer == buffer && t.timestamp == timestamp
    ensures t.name == "Track " + NatToString(capturedCount + 1)
  {
    Track("track-" + IntToString(idTime), buffer, "Track " + NatToString(capturedCount + 1), timestamp)
  }

  /** Recordings started with different track counts get different names. */
  lemma RecordedNamesDiffer(m: nat, n: nat, b: nat, c: nat, i: int, j: int, s: int, u: int)
    requires m != n
    ensures RecordedTrack(m, b, i, s).name != RecordedTrack(n, c, j, u).name
  {
    var p := "Track ";
    if RecordedTrack(m, b, i, s).name == RecordedTrack(n, c, j, u).name {
      assert (p + NatToString(m + 1))[|p|..] == NatToString(m + 1);
      assert (p + NatToString(n + 1))[|p|..] == NatToString(n + 1);
      NatToStringInjective(m + 1, n + 1);
    }
  }

  class Recorder {
    const hasStream: bool
    const hasContext: bool
    var isRecording: bool
    var tracks: seq<Track>
    /** Whether `mediaRecorder.current` is set. */
    var hasRecorder: bool
    /** Whether that recorder has been told to stop. */
    var recorderStopped: bool
    /** The sizes of the chunks collected for the current recording. */
    var recordedChunks: seq<nat>

    constructor(stream: bool, context: bool)
      ensures hasStream == stream && hasContext == context
      ensures !isRecording && tracks == [] && !hasRecorder && recordedChunks == []
    {
      hasStream, hasContext := stream, context;
      isRecording, tracks, hasRecorder, recorderStopped, recordedChunks := false, [], false, false, [];
    }

    /** Without a stream nothing happens and no recording exists. Otherwise the chunks are
        reset, a fresh recorder is started and recording is on; the result is the track count
        the recording's completion handler captures. */
    method StartRecording() returns (capturedCount: Option<nat>)
      modifies this
      ensures !hasStream ==> capturedCount == None && isRecording == old(isRecording)
                             && hasRecorder == old(hasRecorder) && recordedChunks == old(recordedChunks)
                             && recorderStopped == old(recorderStopped)
      ensures hasStream ==> capturedCount == Some(|tracks|) && isRecording && hasRecorder
                            && !recorderStopped && recordedChunks == []
      ensures tracks == old(tracks)
    {
      if !hasStream {
        return None;
      }
      recordedChunks := [];
      hasRecorder, recorderStopped := true, false;
      isRecording := true;
      capturedCount := Some(|tracks|);
    }

    /** `ondataavailable`: only non-empty chunks are kept. */
    method DataAvailable(size: nat)
      modifies this
      ensures recordedChunks == if size > 0 then old(recordedChunks) + [size] else old(recordedChunks)
      ensures tracks == old(tracks) && isRecording == old(isRecording)
      ensures hasRecorder == old(hasRecorder) && recorderStopped == old(recorderStopped)
    {
      if size > 0 {
        recordedChunks := recordedChunks + [size];
      }
    }

    /** Acts only when a recorder exists and recording is on: the recorder is stopped and
        recording turns off. */
    method StopRecording()
      modifies this
      ensures old(hasRecorder && isRecording) ==> !isRecording && recorderStopped
      ensures !old(hasRecorder && isRecording) ==> isRecording == old(isRecording) && recorderStopped == old(recorderStopped)
      ensures tracks == old(tracks) && hasRecorder == old(hasRecorder) && recordedChunks == old(recordedChunks)
    {
      if hasRecorder && isRecording {
        recorderStopped := true;
        isRecording := false;
      }
    }

    /** The recorder's `onstop` handler, for a recording started when there were
        `capturedCount` tracks: with a context and a decoded buffer exactly one track is
        appended; a failed decode or a missing context appends nothing. */
    method RecordingStopped(capturedCount: nat, decoded: Option<nat>, idTime: int, timestamp: int)
      modifies this
      ensures hasContext && decoded.Some? ==>
        tracks == old(tracks) + [RecordedTrack(capturedCount, decoded.value, idTime, timestamp)]
      ensures !(hasContext && decoded.Some?) ==> tracks == old(tracks)
      ensures isRecording == old(isRecording) && hasRecorder == old(hasRecorder)
      ensures recorderStopped == old(recorderStopped) && recordedChunks == old(recordedChunks)
    {
      if hasContext && decoded.Some? {
        tracks := tracks + [RecordedTrack(capturedCount, decoded.value, idTime, timestamp)];
      }
    }

    method ClearTracks()
      modifies this
      ensures tracks == [] && isRecording == old(isRecording) && hasRecorder == old(hasRecorder)
      ensures recorderStopped == old(recorderStopped) && recordedChunks == old(recordedChunks)
    {
      tracks := [];
    }
  }
}
