/**
  The recorder hook with undo: the same recording life cycle as the plain
  recorder, but the track list lives in an undo/redo history, so appending,
  deleting and clearing tracks are history steps, and undo and redo are
  delegated to it.
 */
module RecorderWithUndo {
  import opened Common
  import opened TrackList
  import Recorder
  import UndoRedo

  /** `tracks.filter(track => track.id !== trackId)`. */
  function WithoutTrack(tracks: seq<Track>, trackId: string): (r: seq<Track>)
    ensures |r| <= |tracks|
    ensures forall t :: t in r <==> t in tracks && t.id != trackId
  {
    if tracks == [] then []
    else if tracks[0].id == trackId then WithoutTrack(tracks[1..], trackId)
    else [tracks[0]] + WithoutTrack(tracks[1..], trackId)
  }

  /** The filter keeps order: filtering a concatenation filters each part. */
  lemma {:induction false} WithoutTrackSplits(a: seq<Track>, b: seq<Track>, trackId: string)
    ensures WithoutTrack(a + b, trackId) == WithoutTrack(a, trackId) + WithoutTrack(b, trackId)
  {
    if a != [] {
      assert (a + b)[1..] == a[1..] + b;
      WithoutTrackSplits(a[1..], b, trackId);
      if a[0].id != trackId {
        assert [a[0]] + WithoutTrack(a[1..], trackId) + WithoutTrack(b, trackId)
            == [a[0]] + (WithoutTrack(a[1..], trackId) + WithoutTrack(b, trackId));
      }
    } else {
      assert a + b == b;
    }
  }

  /** Deleting an id no track has changes nothing. */
  lemma {:induction false} WithoutAbsentTrack(tracks: seq<Track>, trackId: string)
    requires forall k :: 0 <= k < |tracks| ==> tracks[k].id != trackId
    ensures WithoutTrack(tracks, trackId) == tracks
  {
    if tracks != [] {
      WithoutAbsentTrack(tracks[1..], trackId);
    }
  }

  /** Deleting the id of a track just appended, which no earlier track has, undoes the
      append. */
  lemma DeleteAppended(tracks: seq<Track>, t: Track)
    requires forall k :: 0 <= k < |tracks| ==> tracks[k].id != t.id
    ensures WithoutTrack(tracks + [t], t.id) == tracks
  {
    WithoutTrackSplits(tracks, [t], t.id);
    WithoutAbsentTrack(tracks, t.id);
  }

  class RecorderWithUndo {
    const hasStream: bool
    const hasContext: bool
    /** The `useUndoRedo<Track[]>([])` the track list lives in. */
    const tracks: UndoRedo.UndoRedoHistory<seq<Track>>
    var isRecording: bool
    var hasRecorder: bool
    var recorderStopped: bool
    var recordedChunks: seq<nat>
    /** `pendingTrackRef.current`: the last track a recording produced. */
    var pendingTrack: Option<Track>

    ghost predicate Valid()
      reads this, tracks
    {
      tracks.Valid() && tracks.initialState == [] && tracks.maxHistorySize == UndoRedo.DefaultMaxHistorySize
    }

    constructor(stream: bool, context: bool)
      ensures Valid() && fresh(tracks)
      ensures hasStream == stream && hasContext == context
      ensures tracks.history == UndoRedo.History([], [], []) && !tracks.undoRedoFlag
      ensures !isRecording && !hasRecorder && recordedChunks == [] && pendingTrack == None
    {
      hasStream, hasContext := stream, context;
      tracks := new UndoRedo.UndoRedoHistory([], UndoRedo.DefaultMaxHistorySize);
      isRecording, hasRecorder, recorderStopped, recordedChunks := false, false, false, [];
      pendingTrack := None;
    }

    /** Without a stream nothing happens. Otherwise a fresh recorder starts and recording is
        on; the result is the track count the completion handler captures. */
    method StartRecording() returns (capturedCount: Option<nat>)
      requires Valid()
      modifies this
      ensures Valid()
      ensures !hasStream ==> capturedCount == None && isRecording == old(isRecording)
                             && hasRecorder == old(hasRecorder) && recordedChunks == old(recordedChunks)
                             && recorderStopped == old(recorderStopped)
      ensures hasStream ==> capturedCount == Some(|tracks.State()|) && isRecording && hasRecorder
                            && !recorderStopped && recordedChunks == []
      ensures pendingTrack == old(pendingTrack)
    {
      if !hasStream {
        return None;
      }
      recordedChunks := [];
      hasRecorder, recorderStopped := true, false;
      isRecording := true;
      capturedCount := Some(|tracks.State()|);
    }

    /** `ondataavailable`: only non-empty chunks are kept. */
    method DataAvailable(size: nat)
      requires Valid()
      modifies this
      ensures Valid()
      ensures recordedChunks == if size > 0 then old(recordedChunks) + [size] else old(recordedChunks)
      ensures isRecording == old(isRecording) && pendingTrack == old(pendingTrack)
      ensures hasRecorder == old(hasRecorder) && recorderStopped == old(recorderStopped)
    {
      if size > 0 {
        recordedChunks := recordedChunks + [size];
      }
    }

    /** Acts only when a recorder exists and recording is on. */
    method StopRecording()
      requires Valid()
      modifies this
      ensures Valid()
      ensures old(hasRecorder && isRecording) ==> !isRecording && recorderStopped
      ensures !old(hasRecorder && isRecording) ==> isRecording == old(isRecording) && recorderStopped == old(recorderStopped)
      ensures hasRecorder == old(hasRecorder) && pendingTrack == old(pendingTrack)
      ensures recordedChunks == old(recordedChunks)
    {
      if hasRecorder && isRecording {
        recorderStopped := true;
        isRecording := false;
      }
    }

    /** The `onstop` handler: with a context and a decoded buffer the new track becomes the
        pending one and is appended as one history step; a failed decode is caught and
        changes nothing. */
    method RecordingStopped(capturedCount: nat, decoded: Option<nat>, idTime: int, timestamp: int)
      requires Valid()
      modifies this, tracks
      ensures Valid() && tracks.undoRedoFlag == old(tracks.undoRedoFlag)
      ensures hasContext && decoded.Some? ==>
        var t := Recorder.RecordedTrack(capturedCount, decoded.value, idTime, timestamp);
        && pendingTrack == Some(t)
        && tracks.history == UndoRedo.Updated(old(tracks.history), old(tracks.undoRedoFlag),
                                              old(tracks.history).present + [t], tracks.maxHistorySize)
      ensures !(hasContext && decoded.Some?) ==> tracks.history == old(tracks.history) && pendingTrack == old(pendingTrack)
      ensures isRecording == old(isRecording) && hasRecorder == old(hasRecorder)
      ensures recorderStopped == old(recorderStopped) && recordedChunks == old(recordedChunks)
    {
      if hasContext && decoded.Some? {
        var t := Recorder.RecordedTrack(capturedCount, decoded.value, idTime, timestamp);
        pendingTrack := Some(t);
        tracks.SetState(tracks.State() + [t]);
      }
    }

    /** `setTracks([])` then `clearHistory()`: no tracks and no history either way. */
    method ClearTracks()
      requires Valid()
      modifies tracks
      ensures Valid() && tracks.history == UndoRedo.History([], [], [])
      ensures tracks.undoRedoFlag == old(tracks.undoRedoFlag)
    {
      tracks.SetState([]);
      tracks.ClearHistory();
    }

    /** Keeps exactly the tracks with another id, in order, as one history step. */
    method DeleteTrack(trackId: string)
      requires Valid()
      modifies tracks
      ensures Valid() && tracks.undoRedoFlag == old(tracks.undoRedoFlag)
      ensures tracks.history == UndoRedo.Updated(old(tracks.history), old(tracks.undoRedoFlag),
                                                 WithoutTrack(old(tracks.history).present, trackId), tracks.maxHistorySize)
    {
      tracks.SetState(WithoutTrack(tracks.State(), trackId));
    }

    /** Delegates to the history; the pending track is forgotten when it is the last track
        of the list as it was before the undo. */
    method Undo()
      requires Valid()
      modifies this, tracks
      ensures Valid() && tracks.history == UndoRedo.Undone(old(tracks.history))
      ensures tracks.undoRedoFlag == (old(tracks.undoRedoFlag) || old(tracks.history).past != [])
      ensures isRecording == old(isRecording) && hasRecorder == old(hasRecorder)
      ensures recorderStopped == old(recorderStopped) && recordedChunks == old(recordedChunks)
      ensures var before := old(tracks.history).present;
        pendingTrack == if old(pendingTrack).Some? && |before| > 0 && before[|before| - 1].id == old(pendingTrack).value.id
                        then None else old(pendingTrack)
    {
      var before := tracks.State();
      tracks.Undo();
      if pendingTrack.Some? && |before| > 0 && before[|before| - 1].id == pendingTrack.value.id {
        pendingTrack := None;
      }
    }

    method Redo()
      requires Valid()
      modifies tracks
      ensures Valid() && tracks.history == UndoRedo.Redone(old(tracks.history))
      ensures tracks.undoRedoFlag == (old(tracks.undoRedoFlag) || old(tracks.history).future != [])
    {
      tracks.Redo();
    }

    function CanUndo(): (r: bool)
      reads this, tracks
      ensures r <==> tracks.history.past != []
    {
      UndoRedo.CanUndo(tracks.history)
    }

    function CanRedo(): (r: bool)
      reads this, tracks
      ensures r <==> tracks.history.future != []
    {
      UndoRedo.CanRedo(tracks.history)
    }
  }

  /** A recording appended in normal mode and then undone leaves the list as it was, and redo
      brings the track back. */
  lemma RecordingUndoable(h: UndoRedo.History<seq<Track>>, t: Track)
    ensures var after := UndoRedo.Updated(h, false, h.present + [t], UndoRedo.DefaultMaxHistorySize);
      && UndoRedo.Undone(after).present == h.present
      && UndoRedo.Redone(UndoRedo.Undone(after)).present == h.present + [t]
  {
    var after := UndoRedo.Updated(h, false, h.present + [t], UndoRedo.DefaultMaxHistorySize);
    assert after.past != [] && after.past[|after.past| - 1] == h.present;
    UndoRedo.UndoThenRedo(after);
  }
}
