/** The mood playlist screen (src/components/MoodPlaylists.tsx): the six moods,
    the hour-based suggestion, next/previous navigation over the generated list,
    and the play/pause state it keeps beside the playback hook. */
module MoodPlaylists {
  import opened Wrappers
  import opened Catalogue
  import Audio

  /** A mood card's text; icon and colour are presentation and left out. */
  datatype Mood = Mood(id: string, name: string, description: string)

  /** The screen's six moods, in screen order. */
  function Moods(): seq<Mood> {
    [ Mood("chill", "Chill Vibes", "Relaxed and mellow tracks for unwinding"),
      Mood("hype", "Hype Energy", "High-energy beats to pump you up"),
      Mood("reflective", "Reflective", "Thoughtful music for deep contemplation"),
      Mood("romantic", "Romantic", "Love songs and intimate melodies"),
      Mood("morning", "Morning Boost", "Uplifting tracks to start your day"),
      Mood("night", "Night Vibes", "Smooth late-night listening") ]
  }

  /** The screen's moods are exactly the moods of the track table. */
  lemma MoodsMatchCatalogue()
    ensures |Moods()| == |MoodIds()|
    ensures forall k :: 0 <= k < |Moods()| ==> Moods()[k].id == MoodIds()[k]
  {
  }

  /** The suggested mood for an hour of the day: morning before noon, hype
      until six in the evening, night after. */
  function SuggestedMood(hour: int): (r: string)
    ensures r in MoodIds()
    ensures r == "morning" <==> hour < 12
    ensures r == "hype" <==> 12 <= hour < 18
    ensures r == "night" <==> 18 <= hour
  {
    if hour < 12 then "morning" else if hour < 18 then "hype" else "night"
  }

  /** `moods.find(m => m.id === suggestedMood)`: the suggestion always names a card. */
  function MoodById(id: string): (r: Option<Mood>)
    ensures r.Some? ==> r.value in Moods() && r.value.id == id
    ensures r.None? <==> forall m :: m in Moods() ==> m.id != id
  {
    FindMood(Moods(), id)
  }

  /** `ms.find(m => m.id === id)`: the first card with that id, if any. */
  function FindMood(ms: seq<Mood>, id: string): (r: Option<Mood>)
    ensures r.Some? ==> r.value in ms && r.value.id == id
    ensures r.None? <==> forall m :: m in ms ==> m.id != id
    ensures r.Some? ==> exists i :: 0 <= i < |ms| && ms[i] == r.value && forall j :: 0 <= j < i ==> ms[j].id != id
  {
    if ms == [] then None
    else if ms[0].id == id then Some(ms[0])
    else
      var rest := FindMood(ms[1..], id);
      if rest.Some? then
        ghost var k :| 0 <= k < |ms| - 1 && ms[1..][k] == rest.value && forall j :: 0 <= j < k ==> ms[1..][j].id != id;
        assert ms[k + 1] == rest.value && forall j :: 0 <= j < k + 1 ==> ms[j].id != id;
        rest
      else
        rest
  }

  /** The "Generate ... Playlist" button for the suggestion always finds its mood's name. */
  lemma SuggestionHasCard(hour: int)
    ensures MoodById(SuggestedMood(hour)).Some?
  {
    var id := SuggestedMood(hour);
    assert Moods()[4].id == "morning" && Moods()[1].id == "hype" && Moods()[5].id == "night";
  }

  // ---------------------------------------------------------------------------
  // Navigation

  /** `tracks.findIndex(t => t.id === currentTrack?.id)`: -1 when there is no
      current track or none of the list has its id. */
  function IndexOfCurrent(ts: seq<MusicTrack>, current: Option<MusicTrack>): (r: int)
    ensures -1 <= r < |ts|
    ensures r == -1 <==> current.None? || forall j :: 0 <= j < |ts| ==> ts[j].id != current.value.id
    ensures 0 <= r ==> current.Some? && ts[r].id == current.value.id
    ensures 0 <= r ==> forall j :: 0 <= j < r ==> ts[j].id != current.value.id
  {
    if current.None? || ts == [] then -1
    else if ts[0].id == current.value.id then 0
    else
      var k := IndexOfCurrent(ts[1..], current);
      if k == -1 then -1 else k + 1
  }

  /** `(i + 1) % n` for a found-or-missing index `i` (never below -1, so the
      remainder is that of the non-negative `i + 1`). */
  function NextIndex(i: int, n: int): (r: int)
    requires 0 < n && -1 <= i < n
    ensures 0 <= r < n
    ensures i + 1 < n ==> r == i + 1
    ensures i == n - 1 ==> r == 0
  {
    (i + 1) % n
  }

  /** `i === 0 ? n - 1 : i - 1`. */
  function PreviousIndex(i: int, n: int): (r: int)
    requires -1 <= i < n
    ensures 0 < i ==> r == i - 1
    ensures i == 0 ==> r == n - 1
    ensures i == -1 ==> r == -2
  {
    if i == 0 then n - 1 else i - 1
  }

  /** On found indices, next undoes previous and previous undoes next. */
  lemma NextPreviousInverse(i: int, n: int)
    requires 0 <= i < n
    ensures PreviousIndex(NextIndex(i, n), n) == i
    ensures NextIndex(PreviousIndex(i, n), n) == i
  {
  }

  /** `tracks[k]`, which is undefined outside the list. */
  function TrackAt(ts: seq<MusicTrack>, k: int): (r: Option<MusicTrack>)
    ensures r.Some? <==> 0 <= k < |ts|
    ensures r.Some? ==> r.value == ts[k]
  {
    if 0 <= k < |ts| then Some(ts[k]) else None
  }

  /** The track `nextTrack` selects; on an empty list the remainder is NaN and
      the track undefined. */
  function NextSelection(ts: seq<MusicTrack>, current: Option<MusicTrack>): (r: Option<MusicTrack>)
    ensures r.Some? <==> |ts| > 0
    ensures r.Some? ==> r.value in ts
  {
    if |ts| == 0 then None else TrackAt(ts, NextIndex(IndexOfCurrent(ts, current), |ts|))
  }

  /** The track `previousTrack` selects. */
  function PreviousSelection(ts: seq<MusicTrack>, current: Option<MusicTrack>): (r: Option<MusicTrack>)
    ensures r.None? <==> IndexOfCurrent(ts, current) == -1
    ensures r.Some? ==> r.value in ts
  {
    TrackAt(ts, PreviousIndex(IndexOfCurrent(ts, current), |ts|))
  }

  /** In a list with distinct ids, a member's index is its position. */
  lemma IndexOfMember(ts: seq<MusicTrack>, i: nat)
    requires DistinctIds(ts) && i < |ts|
    ensures IndexOfCurrent(ts, Some(ts[i])) == i
  {
  }

  /** Next wraps the last track around to the first and otherwise moves one on. */
  lemma NextSelectionOfMember(ts: seq<MusicTrack>, i: nat)
    requires DistinctIds(ts) && i < |ts|
    ensures NextSelection(ts, Some(ts[i])) == Some(ts[if i == |ts| - 1 then 0 else i + 1])
    ensures PreviousSelection(ts, Some(ts[i])) == Some(ts[if i == 0 then |ts| - 1 else i - 1])
  {
    IndexOfMember(ts, i);
  }

  /** Over a list with distinct ids, previous after next and next after previous
      both come back to the track one started from. */
  lemma NavigationRoundTrip(ts: seq<MusicTrack>, i: nat)
    requires DistinctIds(ts) && i < |ts|
    ensures PreviousSelection(ts, NextSelection(ts, Some(ts[i]))) == Some(ts[i])
    ensures NextSelection(ts, PreviousSelection(ts, Some(ts[i]))) == Some(ts[i])
  {
    NextSelectionOfMember(ts, i);
    var nx := if i == |ts| - 1 then 0 else i + 1;
    var pv := if i == 0 then |ts| - 1 else i - 1;
    NextSelectionOfMember(ts, nx);
    NextSelectionOfMember(ts, pv);
  }

  /** A current track missing from the list: next picks the first track, and
      previous computes index -2, which holds no track. */
  lemma NavigationFromMissing(ts: seq<MusicTrack>, current: Option<MusicTrack>)
    requires |ts| > 0
    requires current.None? || forall j :: 0 <= j < |ts| ==> ts[j].id != current.value.id
    ensures NextSelection(ts, current) == Some(ts[0])
    ensures PreviousSelection(ts, current) == None
  {
  }

  /** A mood's playlist has distinct ids, so the navigation lemmas apply to it. */
  lemma GeneratedListsHaveDistinctIds(mood: string)
    ensures DistinctIds(GetTracksByMood(mood))
  {
    IdsUnique();
    FilterMoodDistinct(MusicTracks(), mood);
  }

  /** The row a track becomes when handed to the playback hook. */
  function ToAudioTrack(t: MusicTrack): (r: Audio.AudioTrack)
    ensures r.id == t.id && r.url == TrackUrl(t.id) && r.duration == t.duration as real
  {
    Audio.AudioTrack(t.id, t.name, t.artist, TrackUrl(t.id), t.duration as real)
  }

  // ---------------------------------------------------------------------------
  // The screen's state

  class MoodPlaylistsScreen {
    var selectedMood: Option<string>
    var currentTrack: Option<MusicTrack>
    var isPlaying: bool
    var generatedTracks: seq<MusicTrack>
    const audio: Audio.AudioPlayer

    ghost predicate Valid()
      reads this, audio
    {
      audio.Valid()
    }

    constructor (player: Audio.AudioPlayer)
      requires player.Valid()
      ensures Valid() && audio == player
      ensures selectedMood.None? && currentTrack.None? && !isPlaying && generatedTracks == []
    {
      audio := player;
      selectedMood, currentTrack, isPlaying, generatedTracks := None, None, false, [];
    }

    /** A mood card: the playlist becomes that mood's catalogue tracks. */
    method GeneratePlaylist(moodId: string)
      requires Valid()
      modifies this
      ensures Valid()
      ensures selectedMood == Some(moodId) && generatedTracks == GetTracksByMood(moodId)
      ensures currentTrack == old(currentTrack) && isPlaying == old(isPlaying)
    {
      selectedMood := Some(moodId);
      generatedTracks := GetTracksByMood(moodId);
    }

    /** `handlePlayTrack`: the track becomes current before the hook is asked to
        play it, and the screen reports playing whatever the hook's outcome. */
    method HandlePlayTrack(track: MusicTrack, readiness: Audio.Readiness, playResolves: bool)
      requires Valid()
      modifies this, audio
      ensures Valid()
      ensures currentTrack == Some(track) && isPlaying
      ensures !old(audio.hasElement) ==> unchanged(audio)
      ensures old(audio.hasElement) ==> audio.isPlaying
      ensures old(audio.hasElement) && Audio.NeedsLoad(old(audio.currentTrack), ToAudioTrack(track)) ==>
                audio.currentTrack == Some(ToAudioTrack(track)) && audio.elemSrc == TrackUrl(track.id)
                && audio.elemTime == 0.0 && audio.elemLength.None?
      ensures !Audio.NeedsLoad(old(audio.currentTrack), ToAudioTrack(track)) ==>
                audio.currentTrack == old(audio.currentTrack) && audio.elemSrc == old(audio.elemSrc)
                && audio.elemLength == old(audio.elemLength)
      ensures old(audio.hasElement) && !Audio.NeedsLoad(old(audio.currentTrack), ToAudioTrack(track)) ==>
                audio.elemTime == (if playResolves && old(audio.AtEnd()) then 0.0 else old(audio.elemTime))
      ensures old(audio.hasElement) ==>
                var fellBack := (Audio.NeedsLoad(old(audio.currentTrack), ToAudioTrack(track)) && readiness != Audio.CanPlay)
                                || !playResolves;
                audio.pendingFallbacks == old(audio.pendingFallbacks) + (if fellBack then 1 else 0)
                && audio.elemPaused == (fellBack && (old(audio.elemPaused) || Audio.NeedsLoad(old(audio.currentTrack), ToAudioTrack(track))))
      ensures audio.volume == old(audio.volume) && audio.duration == old(audio.duration)
      ensures audio.currentTime == old(audio.currentTime)
      ensures selectedMood == old(selectedMood) && generatedTracks == old(generatedTracks)
    {
      currentTrack := Some(track);
      var _ := audio.PlayTrack(ToAudioTrack(track), readiness, playResolves);
      isPlaying := true;
    }

    /** The play/pause button: playing turns into paused; paused resumes only
        when a track is current, and is then reported playing even if the
        hook's resume is rejected. */
    method TogglePlayback(resumeResolves: bool)
      requires Valid()
      modifies this, audio
      ensures Valid()
      ensures old(isPlaying) ==> !isPlaying && (old(audio.hasElement) ==> !audio.isPlaying && audio.elemPaused)
      ensures old(isPlaying) && !old(audio.hasElement) ==> unchanged(audio)
      ensures !old(isPlaying) && old(currentTrack).Some? ==> isPlaying
      ensures (!old(isPlaying) && old(currentTrack).Some? && old(audio.hasElement)
               && old(audio.currentTrack).Some? && resumeResolves) ==>
                audio.isPlaying && !audio.elemPaused
                && audio.elemTime == (if old(audio.AtEnd()) then 0.0 else old(audio.elemTime))
      ensures (!old(isPlaying) && !(old(currentTrack).Some? && old(audio.hasElement)
                                   && old(audio.currentTrack).Some? && resumeResolves)) ==> unchanged(audio)
      ensures !old(isPlaying) && old(currentTrack).None? ==> !isPlaying
      ensures old(isPlaying) ==> audio.elemTime == old(audio.elemTime)
      ensures audio.currentTime == old(audio.currentTime) && audio.elemLength == old(audio.elemLength)
      ensures audio.pendingFallbacks == old(audio.pendingFallbacks) && audio.hasElement == old(audio.hasElement)
      ensures audio.elemVolume == old(audio.elemVolume)
      ensures audio.currentTrack == old(audio.currentTrack) && audio.elemSrc == old(audio.elemSrc)
      ensures audio.volume == old(audio.volume) && audio.duration == old(audio.duration)
      ensures currentTrack == old(currentTrack) && selectedMood == old(selectedMood)
      ensures generatedTracks == old(generatedTracks)
    {
      if isPlaying {
        audio.Pause();
        isPlaying := false;
      } else if currentTrack.Some? {
        audio.Resume(resumeResolves);
        isPlaying := true;
      }
    }

    /** The next button: only the displayed current track changes; the hook
        keeps playing what it was playing. */
    method NextTrack()
      requires Valid()
      modifies this
      ensures Valid()
      ensures currentTrack == NextSelection(old(generatedTracks), old(currentTrack))
      ensures isPlaying == old(isPlaying) && selectedMood == old(selectedMood)
      ensures generatedTracks == old(generatedTracks)
    {
      currentTrack := NextSelection(generatedTracks, currentTrack);
    }

    /** The previous button, likewise. */
    method PreviousTrack()
      requires Valid()
      modifies this
      ensures Valid()
      ensures currentTrack == PreviousSelection(old(generatedTracks), old(currentTrack))
      ensures isPlaying == old(isPlaying) && selectedMood == old(selectedMood)
      ensures generatedTracks == old(generatedTracks)
    {
      currentTrack := PreviousSelection(generatedTracks, currentTrack);
    }
  }
}
