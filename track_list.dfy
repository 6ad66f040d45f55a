/**
  Recorded tracks and the audibility rule of the track list: soloing any track
  silences every track that is not soloed, whatever is muted.
 */
module TrackList {

  /** A recorded track; `buffer` stands for its decoded audio buffer. */
  datatype Track = Track(id: string, buffer: nat, name: string, timestamp: int)

  /** `isTrackAudible`: with a soloed track, exactly the soloed tracks are audible;
      otherwise exactly the unmuted ones. */
  function IsTrackAudible(soloed: set<string>, muted: set<string>, trackId: string): (r: bool)
    ensures |soloed| > 0 ==> (r <==> trackId in soloed)
    ensures |soloed| == 0 ==> (r <==> trackId !in muted)
  {
    if |soloed| > 0 then trackId in soloed else trackId !in muted
  }

  /** The mute button is disabled exactly for soloed tracks. */
  predicate MuteDisabled(soloed: set<string>, trackId: string)
  {
    trackId in soloed
  }

  /** A soloed track is audible even when muted. */
  lemma SoloedIsAudible(soloed: set<string>, muted: set<string>, trackId: string)
    requires trackId in soloed
    ensures IsTrackAudible(soloed, muted, trackId)
  {
  }

  /** Once anything is soloed, the mute set makes no difference. */
  lemma SoloOverridesMute(soloed: set<string>, muted: set<string>, muted': set<string>, trackId: string)
    requires soloed != {}
    ensures IsTrackAudible(soloed, muted, trackId) == IsTrackAudible(soloed, muted', trackId)
  {
  }

  /** A silent track is never soloed (so its mute button is enabled), and with nothing
      soloed it is silent only because it is muted. */
  lemma MuteOnlyMattersWithoutSolo(soloed: set<string>, muted: set<string>, trackId: string)
    requires !IsTrackAudible(soloed, muted, trackId)
    ensures !MuteDisabled(soloed, trackId)
    ensures soloed == {} ==> trackId in muted
  {
  }
}
