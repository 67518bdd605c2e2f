/** The playback hook (src/hooks/useAudio.ts): transport state kept beside one
    media element. The element is abstract: its source, position, volume and
    paused flag are fields, and what it reports back (readiness after a load,
    whether `play()` resolves, `ended`, `error`, `timeupdate`, metadata) arrives
    as parameters or as event methods. */
module Audio {
  import opened Wrappers

  /** The track record the hook is handed; `duration` is in seconds. */
  datatype AudioTrack = AudioTrack(id: string, name: string, artist: string, url: string, duration: real)

  /** How the wait after loading a new source ends: `canplay`, `error`, or the 5 s timeout. */
  datatype Readiness = CanPlay | LoadError | LoadTimeout

  const InitialVolume: real := 0.8

  /** `Math.max(0, Math.min(1, v))`. */
  function Clamp01(v: real): (r: real)
    ensures 0.0 <= r <= 1.0
    ensures 0.0 <= v <= 1.0 ==> r == v
    ensures v < 0.0 ==> r == 0.0
    ensures v > 1.0 ==> r == 1.0
  {
    if v < 0.0 then 0.0 else if v > 1.0 then 1.0 else v
  }

  /** Clamping twice is clamping once. */
  lemma Clamp01Idempotent(v: real)
    ensures Clamp01(Clamp01(v)) == Clamp01(v)
  {
  }

  /** `!currentTrack || currentTrack.id !== track.id`: whether a play request loads a new source. */
  predicate NeedsLoad(current: Option<AudioTrack>, track: AudioTrack)
  {
    current.None? || current.value.id != track.id
  }

  /** Where setting the element's `currentTime` to `t` puts it. Before metadata
      has loaded the value is kept as the start position, as given; after, the
      element seeks to it clamped to the resource, from 0 to its length. */
  function SeekPosition(t: real, length: Option<real>): (r: real)
    ensures length.None? ==> r == t
    ensures length.Some? && 0.0 <= length.value ==> 0.0 <= r <= length.value
    ensures length.Some? && 0.0 <= t <= length.value ==> r == t
    ensures length.Some? && t < 0.0 ==> r == 0.0
    ensures length.Some? && 0.0 <= length.value < t ==> r == length.value
  {
    match length
    case None => t
    case Some(len) => if t < 0.0 then 0.0 else if t > len then len else t
  }

  class AudioPlayer {
    // React state
    var isPlaying: bool
    var currentTime: real
    var duration: real
    var volume: real
    var currentTrack: Option<AudioTrack>

    // the media element (`audioRef.current`), once created
    var hasElement: bool
    var elemSrc: string
    var elemTime: real
    var elemVolume: real
    var elemPaused: bool
    /** The element's `duration` once its metadata has loaded; None while it is NaN. */
    var elemLength: Option<real>

    /** Fallback sessions started by a failed play whose 10 s stop timer has not yet fired. */
    var pendingFallbacks: nat

    /** The stored volume is always clamped and is what the element plays at, and
        a current track implies an element whose source is that track's url. */
    ghost predicate Valid()
      reads this
    {
      0.0 <= volume <= 1.0 &&
      (hasElement ==> elemVolume == volume) &&
      (currentTrack.Some? ==> hasElement && elemSrc == currentTrack.value.url) &&
      (elemLength.Some? ==> hasElement && 0.0 <= elemLength.value)
    }

    /** The element has ended playback: its position is the end of a resource of
        known length (the hook never sets `loop`). */
    predicate AtEnd()
      reads this
    {
      elemLength.Some? && elemTime == elemLength.value
    }

    /** The hook's first render, before the mount effect has created the element. */
    constructor ()
      ensures Valid()
      ensures !isPlaying && currentTime == 0.0 && duration == 0.0 && volume == InitialVolume
      ensures currentTrack.None? && !hasElement && pendingFallbacks == 0 && elemLength.None?
    {
      isPlaying, currentTime, duration, volume, currentTrack := false, 0.0, 0.0, InitialVolume, None;
      hasElement, elemSrc, elemTime, elemVolume, elemPaused := false, "", 0.0, 0.0, true;
      elemLength := None;
      pendingFallbacks := 0;
    }

    /** The mount effect: a fresh element at the stored volume. */
    method Mount()
      requires Valid() && !hasElement
      modifies this
      ensures Valid()
      ensures hasElement && elemSrc == "" && elemTime == 0.0 && elemPaused && elemVolume == volume
      ensures elemLength.None?
      ensures isPlaying == old(isPlaying) && currentTime == old(currentTime) && duration == old(duration)
      ensures volume == old(volume) && currentTrack == old(currentTrack) && pendingFallbacks == old(pendingFallbacks)
    {
      hasElement, elemSrc, elemTime, elemPaused := true, "", 0.0, true;
      elemVolume, elemLength := volume, None;
    }

    /** `playTrack`. A track with a different id (or a first track) is loaded:
        the element takes its url and is reset (paused, at 0, length unknown), and it
        becomes the current track before the wait, so it stays current even if loading
        fails. The same id skips loading and plays from where the element is, or from
        the start when it has ended, as a resolving `play()` on an ended element does. Every path
        that reaches the element ends playing: a failed load or a rejected
        `play()` starts the fallback beeps and their 10 s stop timer instead.
        `fellBack` tells which happened. */
    method PlayTrack(track: AudioTrack, readiness: Readiness, playResolves: bool) returns (fellBack: bool)
      requires Valid()
      modifies this
      ensures Valid()
      ensures !old(hasElement) ==> !fellBack && unchanged(this)
      ensures old(hasElement) ==> isPlaying && currentTrack == (if NeedsLoad(old(currentTrack), track) then Some(track) else old(currentTrack))
      ensures old(hasElement) && NeedsLoad(old(currentTrack), track) ==>
                elemSrc == track.url && elemTime == 0.0 && elemLength.None?
      ensures old(hasElement) && !NeedsLoad(old(currentTrack), track) ==>
                elemSrc == old(elemSrc) && elemLength == old(elemLength)
                && elemTime == (if playResolves && old(AtEnd()) then 0.0 else old(elemTime))
      ensures old(hasElement) ==> fellBack == ((NeedsLoad(old(currentTrack), track) && readiness != CanPlay) || !playResolves)
      ensures old(hasElement) ==> elemPaused == (fellBack && (old(elemPaused) || NeedsLoad(old(currentTrack), track)))
      ensures pendingFallbacks == old(pendingFallbacks) + (if fellBack then 1 else 0)
      ensures hasElement == old(hasElement) && currentTime == old(currentTime) && duration == old(duration)
      ensures volume == old(volume) && elemVolume == old(elemVolume)
    {
      fellBack := false;
      if !hasElement {
        return;
      }
      if NeedsLoad(currentTrack, track) {
        // `load()` resets the media element: paused, at position 0.
        elemSrc := track.url;
        currentTrack := Some(track);
        elemTime := 0.0;
        elemLength := None;
        elemPaused := true;
        if readiness != CanPlay {
          fellBack := true;
        }
      }
      if !fellBack && playResolves {
        if AtEnd() {
          elemTime := 0.0;
        }
        elemPaused := false;
      } else {
        fellBack := true;
      }
      isPlaying := true;
      if fellBack {
        pendingFallbacks := pendingFallbacks + 1;
      }
    }

    /** The fallback's 10 s timer firing: playback is reported stopped. */
    method FallbackExpired()
      requires Valid() && pendingFallbacks > 0
      modifies this
      ensures Valid()
      ensures !isPlaying && pendingFallbacks == old(pendingFallbacks) - 1
      ensures currentTime == old(currentTime) && duration == old(duration) && volume == old(volume)
      ensures currentTrack == old(currentTrack) && hasElement == old(hasElement) && elemSrc == old(elemSrc)
      ensures elemTime == old(elemTime) && elemVolume == old(elemVolume) && elemPaused == old(elemPaused)
      ensures elemLength == old(elemLength)
    {
      isPlaying := false;
      pendingFallbacks := pendingFallbacks - 1;
    }

    /** `pause`: with an element, pause it and report not playing; else nothing. */
    method Pause()
      requires Valid()
      modifies this
      ensures Valid()
      ensures old(hasElement) ==> !isPlaying && elemPaused
      ensures !old(hasElement) ==> unchanged(this)
      ensures currentTime == old(currentTime) && duration == old(duration) && volume == old(volume)
      ensures currentTrack == old(currentTrack) && hasElement == old(hasElement) && elemSrc == old(elemSrc)
      ensures elemTime == old(elemTime) && elemVolume == old(elemVolume) && pendingFallbacks == old(pendingFallbacks)
      ensures elemLength == old(elemLength)
    {
      if hasElement {
        elemPaused := true;
        isPlaying := false;
      }
    }

    /** `resume`: only with an element and a current track; playing is reported
        only when `play()` resolves, and a rejection changes nothing. A resolving
        `play()` on an ended element starts it over from 0. */
    method Resume(playResolves: bool)
      requires Valid()
      modifies this
      ensures Valid()
      ensures old(hasElement) && old(currentTrack).Some? && playResolves ==>
                isPlaying && !elemPaused && elemTime == (if old(AtEnd()) then 0.0 else old(elemTime))
      ensures !(old(hasElement) && old(currentTrack).Some? && playResolves) ==> unchanged(this)
      ensures currentTime == old(currentTime) && duration == old(duration) && volume == old(volume)
      ensures currentTrack == old(currentTrack) && hasElement == old(hasElement) && elemSrc == old(elemSrc)
      ensures elemLength == old(elemLength) && elemVolume == old(elemVolume) && pendingFallbacks == old(pendingFallbacks)
    {
      if hasElement && currentTrack.Some? && playResolves {
        if AtEnd() {
          elemTime := 0.0;
        }
        elemPaused := false;
        isPlaying := true;
      }
    }

    /** `stop`: pause, rewind element and reported time to 0; the track stays current. */
    method Stop()
      requires Valid()
      modifies this
      ensures Valid()
      ensures old(hasElement) ==> !isPlaying && currentTime == 0.0 && elemTime == 0.0 && elemPaused
      ensures !old(hasElement) ==> unchanged(this)
      ensures duration == old(duration) && volume == old(volume) && currentTrack == old(currentTrack)
      ensures hasElement == old(hasElement) && elemSrc == old(elemSrc) && elemVolume == old(elemVolume)
      ensures pendingFallbacks == old(pendingFallbacks) && elemLength == old(elemLength)
    {
      if hasElement {
        elemPaused := true;
        elemTime := 0.0;
        isPlaying := false;
        currentTime := 0.0;
      }
    }

    /** `seek(t)`: the reported time becomes exactly `t`, unclamped; the element
        moves to `t` clamped to its length once that is known. */
    method Seek(t: real)
      requires Valid()
      modifies this
      ensures Valid()
      ensures old(hasElement) ==> currentTime == t && elemTime == SeekPosition(t, elemLength)
      ensures !old(hasElement) ==> unchanged(this)
      ensures isPlaying == old(isPlaying) && duration == old(duration) && volume == old(volume)
      ensures currentTrack == old(currentTrack) && hasElement == old(hasElement) && elemSrc == old(elemSrc)
      ensures elemVolume == old(elemVolume) && elemPaused == old(elemPaused) && pendingFallbacks == old(pendingFallbacks)
      ensures elemLength == old(elemLength)
    {
      if hasElement {
        elemTime := SeekPosition(t, elemLength);
        currentTime := t;
      }
    }

    /** `setVolume(v)`: stores `clamp(v, 0, 1)` and gives the element the same value. */
    method SetVolumeLevel(v: real)
      requires Valid()
      modifies this
      ensures Valid()
      ensures volume == Clamp01(v)
      ensures hasElement ==> elemVolume == Clamp01(v)
      ensures !hasElement ==> elemVolume == old(elemVolume)
      ensures isPlaying == old(isPlaying) && currentTime == old(currentTime) && duration == old(duration)
      ensures currentTrack == old(currentTrack) && hasElement == old(hasElement) && elemSrc == old(elemSrc)
      ensures elemTime == old(elemTime) && elemPaused == old(elemPaused) && pendingFallbacks == old(pendingFallbacks)
      ensures elemLength == old(elemLength)
    {
      var vol := Clamp01(v);
      volume := vol;
      if hasElement {
        elemVolume := vol;
      }
    }

    /** The element's `loadedmetadata` event, carrying the source's length: the
        hook stores it, the element learns it and moves a start position requested
        before it into range. */
    method OnLoadedMetadata(length: real)
      requires Valid() && hasElement && 0.0 <= length
      modifies this
      ensures Valid()
      ensures duration == length && elemLength == Some(length)
      ensures elemTime == SeekPosition(old(elemTime), Some(length))
      ensures isPlaying == old(isPlaying) && currentTime == old(currentTime) && volume == old(volume)
      ensures currentTrack == old(currentTrack) && elemSrc == old(elemSrc)
      ensures hasElement && elemVolume == old(elemVolume) && elemPaused == old(elemPaused)
      ensures pendingFallbacks == old(pendingFallbacks)
    {
      duration := length;
      elemLength := Some(length);
      elemTime := SeekPosition(elemTime, elemLength);
    }

    /** The element's `timeupdate` event: it has played on to `position`, which is
        copied into the reported time. */
    method OnTimeUpdate(position: real)
      requires Valid() && hasElement
      modifies this
      ensures Valid()
      ensures elemTime == position && currentTime == position
      ensures isPlaying == old(isPlaying) && duration == old(duration) && volume == old(volume)
      ensures currentTrack == old(currentTrack) && elemSrc == old(elemSrc)
      ensures hasElement && elemVolume == old(elemVolume) && elemPaused == old(elemPaused)
      ensures pendingFallbacks == old(pendingFallbacks) && elemLength == old(elemLength)
    {
      elemTime := position;
      currentTime := position;
    }

    /** The element's `ended` event, which only a resource of known length fires:
        the element has stopped, paused, at the end; the hook reports not playing
        and its time back at 0. */
    method OnEnded()
      requires Valid() && hasElement && elemLength.Some?
      modifies this
      ensures Valid()
      ensures !isPlaying && currentTime == 0.0
      ensures elemPaused && AtEnd() && elemTime == elemLength.value
      ensures duration == old(duration) && volume == old(volume) && currentTrack == old(currentTrack)
      ensures hasElement && elemSrc == old(elemSrc) && elemLength == old(elemLength)
      ensures elemVolume == old(elemVolume) && pendingFallbacks == old(pendingFallbacks)
    {
      isPlaying := false;
      currentTime := 0.0;
      elemPaused := true;
      elemTime := elemLength.value;
    }

    /** The element's `error` event: not playing; the reported time is left alone. */
    method OnError()
      requires Valid() && hasElement
      modifies this
      ensures Valid()
      ensures !isPlaying
      ensures currentTime == old(currentTime) && duration == old(duration) && volume == old(volume)
      ensures currentTrack == old(currentTrack) && hasElement && elemSrc == old(elemSrc) && elemTime == old(elemTime)
      ensures elemVolume == old(elemVolume) && elemPaused == old(elemPaused) && pendingFallbacks == old(pendingFallbacks)
      ensures elemLength == old(elemLength)
    {
      isPlaying := false;
    }
  }

  /** Replaying the current track's id does not rewind: a first track is loaded,
      its metadata arrives, it is sought to `t`, and it is requested again. The
      position reached (`t` clamped to the track) and the source are kept,
      whatever the second request's readiness would have been, except at the
      very end, where a resolving `play()` starts the track over. */
  method ReplayKeepsPosition(p: AudioPlayer, track: AudioTrack, length: real, t: real, playResolves: bool)
    requires p.Valid() && p.hasElement && p.currentTrack.None? && 0.0 <= length
    modifies p
    ensures p.currentTime == t && p.elemSrc == track.url
    ensures p.isPlaying && p.currentTrack == Some(track)
    ensures SeekPosition(t, Some(length)) < length ==> p.elemTime == SeekPosition(t, Some(length))
    ensures SeekPosition(t, Some(length)) == length ==> p.elemTime == (if playResolves then 0.0 else length)
  {
    var _ := p.PlayTrack(track, CanPlay, true);
    p.OnLoadedMetadata(length);
    p.Seek(t);
    var _ := p.PlayTrack(track, LoadTimeout, playResolves);
  }

  /** After the element has played to the end, resuming starts the track over
      from 0 rather than staying at the end. */
  method ResumeAfterEndRestarts(p: AudioPlayer)
    requires p.Valid() && p.hasElement && p.currentTrack.Some? && p.elemLength.Some?
    modifies p
    ensures p.isPlaying && !p.elemPaused && p.elemTime == 0.0 && p.currentTime == 0.0
    ensures p.currentTrack == old(p.currentTrack) && p.elemSrc == old(p.elemSrc)
  {
    p.OnEnded();
    p.Resume(true);
  }
}
