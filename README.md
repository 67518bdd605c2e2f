# VibeVerse core, modelled in Dafny

VibeVerse is a React music app. This project models the part of it that holds
state and logic:

- the rhythm game's beat list and score counters (`src/components/RhythmGames.tsx`);
- the audio playback hook's transport state (`src/hooks/useAudio.ts`);
- the mood playlist screen: mood suggestion, playlist generation, next and previous navigation, play and pause (`src/components/MoodPlaylists.tsx`);
- the memory journal: validated add at the front and delete by id (`src/components/MemoryTracks.tsx`);
- the constant track catalogue and its two queries (`src/data/musicTracks.ts`);
- the player widget's time labels, progress, toggles and volume scale (`src/components/SpotifyPlayer.tsx`).

The files are:

- `wrappers.dfy` (`Wrappers`): an `Option` type standing in for `undefined`/`null`.
- `catalogue.dfy` (`Catalogue`): the catalogue as pure data and functions.
  - The table is built from one group per mood, in table order.
  - `getTracksByMood` is a recursive filter and `getTrackById` a recursive find.
  - The lemmas pin down exactly what each query returns.
- `rhythm.dfy` (`Rhythm`): a class `RhythmGame` with the component's state.
  - The beat list is a `seq<Beat>` field; the beat counter (`beatIdRef`) is a field too.
  - Each interval body, the tap handler and the reset button is a method.
  - The methods are proved against pure functions (`Advance`, `FindHit`, `MarkHit`, `Points`).
  - They keep the list invariant `WellFormed`.
- `audio.dfy` (`Audio`): a class `AudioPlayer` with the hook's React state and an abstract audio element.
  - The element's fields are `hasElement`, `elemSrc`, `elemTime`, `elemVolume` and `elemPaused`.
  - Asynchronous outcomes are parameters: whether the source became ready, timed out or failed, and whether `play()` resolved.
  - Element events (`loadedmetadata`, `timeupdate`, `ended`, `error`) are methods.
  - The element's length (`elemLength`) is known once metadata has loaded; it decides where a seek lands and when playback has ended (`AtEnd`).
- `mood_playlists.dfy` (`MoodPlaylists`): index arithmetic and selection as functions, plus a screen class.
  - The screen class `MoodPlaylistsScreen` shares an `AudioPlayer` with the hook.
- `memory_tracks.dfy` (`MemoryTracks`): a class `MemoryJournal` and the pure filter `RemoveId`.
- `spotify_player.dfy` (`SpotifyPlayer`): the widget's pieces.
  - `formatTime` comes with a parser that reads its labels back.
  - The progress percentage, the slider/volume scales and a class for the widget's own flags.

Where the written code and its evident intent differ, the model follows
the code, except where the code as written cannot run at all (the last two
points below):

- Moving beats is not paused: the move interval runs whether or not the game is playing (`Rhythm.RhythmGame.MoveTick`).
- A hit's accuracy update is capped at 100 but has no lower bound. `Rhythm.AccuracyCanDropBelowZero` exhibits accuracy -2.5.
- `seek` stores the requested time in the hook's reported time exactly, without clamping to the track length; only the media element clamps its own position (`Audio.AudioPlayer.Seek`).
- When playback fails, the fallback is a fixed notification beep every two seconds for ten seconds. It is not a synthesized rendition of the track. Only its effect on `isPlaying` is modelled (`Audio.AudioPlayer.PlayTrack`, `Audio.AudioPlayer.FallbackExpired`).
- The mood screen reports "playing" after `handlePlayTrack` and after a resume even when the hook could not play (`MoodPlaylists.MoodPlaylistsScreen.HandlePlayTrack`, `MoodPlaylists.MoodPlaylistsScreen.TogglePlayback`).
- As written, `src/components/MoodPlaylists.tsx` does not compile. It takes `currentTime` from the playback hook (line 19) and declares `const currentTime = new Date().getHours()` again at line 131, in the same scope. The model assumes the hour gets a name of its own: it is the `hour` parameter of `MoodPlaylists.SuggestedMood`. The player widget at line 257 is taken to receive the hook's `currentTime`, the playback position in seconds (`SpotifyPlayer.PlayerView.SyncProgress`).
- As written, `src/components/SpotifyPlayer.tsx` calls `useRef` at line 45 without importing it at line 1, so the widget throws on its first render. The model assumes the import is present; the canvas that ref serves is left out.

## Model

| member | source | states |
|---|---|---|
| Catalogue.MusicTracks | src/data/musicTracks.ts:14-180 | the table has 14 rows: the six mood groups concatenated in table order |
| Catalogue.ChillTracks | src/data/musicTracks.ts:16-48 | the chill rows: three tracks with distinct ids, each of mood chill and 180 seconds long |
| Catalogue.HypeTracks | src/data/musicTracks.ts:51-83 | the hype rows: three tracks with distinct ids, each of mood hype and 180 seconds long |
| Catalogue.RomanticTracks | src/data/musicTracks.ts:86-107 | the romantic rows: two tracks with distinct ids, each of mood romantic and 180 seconds long |
| Catalogue.MorningTracks | src/data/musicTracks.ts:110-131 | the morning rows: two tracks with distinct ids, each of mood morning and 180 seconds long |
| Catalogue.NightTracks | src/data/musicTracks.ts:134-155 | the night rows: two tracks with distinct ids, each of mood night and 180 seconds long |
| Catalogue.ReflectiveTracks | src/data/musicTracks.ts:158-179 | the reflective rows: two tracks with distinct ids, each of mood reflective and 180 seconds long |
| Catalogue.TrackUrl | src/data/musicTracks.ts:14-180 | each row's `url` column, keyed by the row's id |
| Catalogue.GetTracksByMood | src/data/musicTracks.ts:183-185 | a track is in the result iff it is a catalogue track with that mood |
| Catalogue.FilterMood | src/data/musicTracks.ts:183-185 | the filter keeps exactly the tracks of the mood, and the result is no longer than the input |
| Catalogue.FilterMoodAppend | src/data/musicTracks.ts:183-185 | filtering distributes over concatenation, so the result keeps catalogue order |
| Catalogue.FilterMoodAll | src/data/musicTracks.ts:183-185 | a list whose tracks all have the mood filters to itself |
| Catalogue.FilterMoodNone | src/data/musicTracks.ts:183-185 | a list with no track of the mood filters to the empty list |
| Catalogue.TracksByMoodAreGroups | src/data/musicTracks.ts:14-185 | each of the six moods yields exactly its own group of rows in table order; any other string yields [] |
| Catalogue.MoodCoverage | src/data/musicTracks.ts:14-185 | each screen mood has at least two tracks; any other mood has none |
| Catalogue.CatalogueShape | src/data/musicTracks.ts:14-180 | the table has 14 tracks, each 180 seconds long and with one of the six moods |
| Catalogue.IdsUnique | src/data/musicTracks.ts:14-180 | no two rows share an id |
| Catalogue.FilterMoodDistinct | src/data/musicTracks.ts:183-185 | filtering a list with distinct ids leaves distinct ids |
| Catalogue.FindById | src/data/musicTracks.ts:194-196 | None iff no track has the id; otherwise the first track carrying it |
| Catalogue.GetTrackById | src/data/musicTracks.ts:194-196 | undefined iff no catalogue track has the id; otherwise a catalogue track with that id |
| Catalogue.GetTrackByIdOfMember | src/data/musicTracks.ts:14-196 | looking up a catalogue track's id returns that very track |
| Rhythm.Round | src/components/RhythmGames.tsx:68 | `Math.round` is the integer within half a unit, halves rounded up |
| Rhythm.Points | src/components/RhythmGames.tsx:65-66 | the points of a hit lie in [10, 100], and are at least 25 inside the window 80..95 |
| Rhythm.PointsAreWhole | src/components/RhythmGames.tsx:65-68 | at a whole-number position the points are the whole number max(100 - abs(875 - 10p), 10), so rounding leaves them unchanged |
| Rhythm.RoundedPointsBounds | src/components/RhythmGames.tsx:65-68 | the score increment of a hit is between 10 and 100 |
| Rhythm.AccuracyAfterHit | src/components/RhythmGames.tsx:77 | accuracy after a hit is acc + (points - 50)/10 when that is at most 100, and exactly 100 when it is more |
| Rhythm.AccuracyAfterMiss | src/components/RhythmGames.tsx:80 | accuracy after a miss is acc - 5 when acc is at least 5, and exactly 0 below that |
| Rhythm.AccuracyCanDropBelowZero | src/components/RhythmGames.tsx:77 | a hit at the window's edge from accuracy 0 leaves accuracy at -2.5 |
| Rhythm.Shifted | src/components/RhythmGames.tsx:51 | every beat moves 2 further along, with id and hit flag unchanged and order kept |
| Rhythm.OnPath | src/components/RhythmGames.tsx:52 | the filter keeps exactly the beats below position 100 |
| Rhythm.Advance | src/components/RhythmGames.tsx:49-53 | a move never lengthens the list, leaves only beats below 100, and keeps every beat that is still below 100 after moving 2 |
| Rhythm.DropCount | src/components/RhythmGames.tsx:49-53 | the leading beats that reach the end in one move |
| Rhythm.OnPathKeepsAll | src/components/RhythmGames.tsx:52 | a list entirely on the path is kept whole |
| Rhythm.KeptStayOnPath | src/components/RhythmGames.tsx:49-53 | on a list with non-increasing positions, every beat after the dropped prefix stays below 100 after the move |
| Rhythm.AdvanceDropsPrefix | src/components/RhythmGames.tsx:49-53 | a move on a list with non-increasing positions drops exactly a prefix and shifts the rest in order |
| Rhythm.SpawnKeepsWellFormed | src/components/RhythmGames.tsx:33-36 | appending a fresh beat at 0 with the counter's id keeps the list invariant |
| Rhythm.ShiftedOnTrack | src/components/RhythmGames.tsx:51 | shifting beats that stay on the path keeps positions even, below 100 and ids below the counter |
| Rhythm.ShiftedKeepsOrder | src/components/RhythmGames.tsx:51 | shifting keeps ids strictly increasing and positions non-increasing |
| Rhythm.ShiftedKeepsWellFormed | src/components/RhythmGames.tsx:51 | shifting beats that stay on the path keeps the list invariant |
| Rhythm.SuffixKeepsWellFormed | src/components/RhythmGames.tsx:52 | dropping a prefix keeps the list invariant |
| Rhythm.AdvanceKeepsWellFormed | src/components/RhythmGames.tsx:49-53 | a move keeps the list invariant |
| Rhythm.Hittable | src/components/RhythmGames.tsx:60-61 | a beat can be hit when it is at 80..95 and not yet hit |
| Rhythm.FindHit | src/components/RhythmGames.tsx:60-62 | the index of the first (oldest) beat in 80..95 not yet hit, or None iff there is none |
| Rhythm.MarkHit | src/components/RhythmGames.tsx:70-74 | every beat with the id gets its hit flag set and every other beat is unchanged |
| Rhythm.MarkHitOnlyTarget | src/components/RhythmGames.tsx:70-74 | with the list invariant, marking the matched beat's id changes that one entry only |
| Rhythm.MarkKeepsWellFormed | src/components/RhythmGames.tsx:70-74 | setting a hit flag keeps the list invariant |
| Rhythm.IdIsUnique | src/components/RhythmGames.tsx:35 | with increasing ids, only one index carries a given beat's id |
| Rhythm.HitIsFinal | src/components/RhythmGames.tsx:60-74 | a beat once hit is not matched by the next tap, and stays flagged after a move |
| Rhythm.TieBreakPrefersOldest | src/components/RhythmGames.tsx:60-66 | in a reachable state with the older beat at 94 and the newer at 88, the older one is matched, though 88 would earn more (95 points against 35) |
| Rhythm.RhythmGame.constructor | src/components/RhythmGames.tsx:5-10 | stopped, score 0, combo 0, accuracy 100, time 0, no beats, counter 0 |
| Rhythm.RhythmGame.TogglePlaying | src/components/RhythmGames.tsx:185 | flips isPlaying only |
| Rhythm.RhythmGame.ClockTick | src/components/RhythmGames.tsx:24-28 | adds a tenth of a second only while playing |
| Rhythm.RhythmGame.SpawnTick | src/components/RhythmGames.tsx:24-37 | while playing, appends one unhit beat at 0 with the old counter as id and increments the counter; otherwise nothing changes |
| Rhythm.RhythmGame.MoveTick | src/components/RhythmGames.tsx:46-57 | runs whether or not the game is playing; the new list is the old one moved and filtered, i.e. the shifted suffix after the dropped prefix |
| Rhythm.RhythmGame.HandleBeatHit | src/components/RhythmGames.tsx:59-82 | on a match, flags that beat alone, adds the rounded points to the score and 1 to the combo, and updates accuracy with the hit formula; otherwise zeroes the combo and applies the miss penalty; the list invariant, score >= 0 and accuracy <= 100 are kept |
| Rhythm.RhythmGame.Reset | src/components/RhythmGames.tsx:84-92 | back to the first render's state, stopped, with the counter at 0 |
| Audio.Clamp01 | src/hooks/useAudio.ts:170 | the result lies in [0,1], equals the input inside it and the nearer end outside it |
| Audio.Clamp01Idempotent | src/hooks/useAudio.ts:170 | clamping twice is clamping once |
| Audio.NeedsLoad | src/hooks/useAudio.ts:79 | a track needs loading when there is no current track or the current one has another id |
| Audio.SeekPosition | src/hooks/useAudio.ts:164 | where setting the element's `currentTime` lands: the value as given before metadata; after it, inside [0, length], equal to t when t is in range, 0 below it and the length above it |
| Audio.AudioPlayer.constructor | src/hooks/useAudio.ts:12-16 | not playing, time and duration 0, volume 0.8, no track, no element yet |
| Audio.AudioPlayer.Mount | src/hooks/useAudio.ts:21-24 | creates the element with the hook's volume |
| Audio.AudioPlayer.PlayTrack | src/hooks/useAudio.ts:72-134 | a no-op without an element; otherwise the source is reloaded (position 0, length unknown) only for a new or different id, the track becomes current before the wait, the fallback runs iff loading or `play()` failed, the element is left paused exactly when the fallback ran after a reload or on an already paused element, a same-id replay keeps the position unless the element has ended and `play()` resolves (then it restarts at 0), and isPlaying ends true either way |
| Audio.AudioPlayer.FallbackExpired | src/hooks/useAudio.ts:129-132 | the fallback's ten-second timer sets isPlaying false |
| Audio.AudioPlayer.Pause | src/hooks/useAudio.ts:136-141 | with an element, pauses it and sets isPlaying false; otherwise nothing changes |
| Audio.AudioPlayer.Resume | src/hooks/useAudio.ts:143-151 | plays only with an element and a current track, and sets isPlaying only if `play()` resolves; an ended element restarts at 0, otherwise the position is kept; a rejection changes nothing |
| Audio.AudioPlayer.Stop | src/hooks/useAudio.ts:153-160 | pauses, rewinds both times to 0 and sets isPlaying false, keeping the current track |
| Audio.AudioPlayer.Seek | src/hooks/useAudio.ts:162-167 | the hook's time becomes exactly the requested time, unclamped; the element's position becomes `SeekPosition` of it: as given before metadata, clamped to [0, length] after |
| Audio.AudioPlayer.SetVolumeLevel | src/hooks/useAudio.ts:169-175 | stores the clamped volume and applies the same value to the element |
| Audio.AudioPlayer.OnLoadedMetadata | src/hooks/useAudio.ts:29-31 | duration and the element's length become the reported length, and a start position requested earlier is clamped into [0, length] |
| Audio.AudioPlayer.OnTimeUpdate | src/hooks/useAudio.ts:33-35 | currentTime follows the element's position |
| Audio.AudioPlayer.OnEnded | src/hooks/useAudio.ts:37-40 | isPlaying false and the hook's time 0, while the element is paused at its end (so `AtEnd` holds) |
| Audio.AudioPlayer.OnError | src/hooks/useAudio.ts:46-49 | isPlaying false, time left alone |
| Audio.ReplayKeepsPosition | src/hooks/useAudio.ts:79-114 | after a load, metadata and a seek to t, replaying the same id skips the reload: the element stays at t clamped to the track, except at the very end, where a resolving `play()` restarts at 0; the hook's time stays t |
| MoodPlaylists.Moods | src/components/MoodPlaylists.tsx:26-69 | the six mood cards, in screen order, with their names and descriptions |
| Audio.ResumeAfterEndRestarts | src/hooks/useAudio.ts:37-40 | after the element ends, a resolving resume plays the same track again from 0 |
| MoodPlaylists.MoodsMatchCatalogue | src/components/MoodPlaylists.tsx:26-69 | the card ids equal `Catalogue.MoodIds` position by position |
| MoodPlaylists.SuggestedMood | src/components/MoodPlaylists.tsx:131-132 | morning iff before 12, hype iff 12 to 17, night iff 18 or later, always a catalogue mood |
| MoodPlaylists.MoodById | src/components/MoodPlaylists.tsx:155 | finds the card with the id, or None iff there is none |
| MoodPlaylists.FindMood | src/components/MoodPlaylists.tsx:155 | the first card with the id, or None iff no card has it |
| MoodPlaylists.SuggestionHasCard | src/components/MoodPlaylists.tsx:131-155 | the suggested mood always has a card |
| MoodPlaylists.IndexOfCurrent | src/components/MoodPlaylists.tsx:120 | -1 iff there is no current track or no list entry has its id; otherwise the first index with that id |
| MoodPlaylists.NextIndex | src/components/MoodPlaylists.tsx:121 | i + 1 when that is in range, 0 from the last index |
| MoodPlaylists.PreviousIndex | src/components/MoodPlaylists.tsx:127 | n - 1 from 0, i - 1 otherwise, and -2 from a missing index |
| MoodPlaylists.NextPreviousInverse | src/components/MoodPlaylists.tsx:120-128 | on found indices next and previous undo each other |
| MoodPlaylists.TrackAt | src/components/MoodPlaylists.tsx:122 | the entry at an index, or None outside the list |
| MoodPlaylists.NextSelection | src/components/MoodPlaylists.tsx:119-123 | a track of the list, and one exactly when the list is non-empty |
| MoodPlaylists.PreviousSelection | src/components/MoodPlaylists.tsx:125-129 | a track of the list, and none exactly when the current track is not found |
| MoodPlaylists.IndexOfMember | src/components/MoodPlaylists.tsx:120 | with distinct ids, a member's index is its position |
| MoodPlaylists.NextSelectionOfMember | src/components/MoodPlaylists.tsx:119-129 | next moves one on and wraps the last to the first; previous moves one back and wraps the first to the last |
| MoodPlaylists.NavigationRoundTrip | src/components/MoodPlaylists.tsx:119-129 | previous after next, and next after previous, return to the starting track |
| MoodPlaylists.NavigationFromMissing | src/components/MoodPlaylists.tsx:119-129 | with the current track missing, next selects the first track and previous selects nothing (index -2) |
| MoodPlaylists.GeneratedListsHaveDistinctIds | src/components/MoodPlaylists.tsx:79 | every generated playlist has distinct ids, so the navigation lemmas apply |
| MoodPlaylists.ToAudioTrack | src/components/MoodPlaylists.tsx:91-97 | the track handed to the hook keeps the id, url and duration |
| MoodPlaylists.MoodPlaylistsScreen.constructor | src/components/MoodPlaylists.tsx:8-12 | no mood selected, no current track, not playing, an empty playlist, sharing the given player |
| MoodPlaylists.MoodPlaylistsScreen.GeneratePlaylist | src/components/MoodPlaylists.tsx:71-84 | the selected mood is set and the playlist becomes that mood's catalogue tracks |
| MoodPlaylists.MoodPlaylistsScreen.HandlePlayTrack | src/components/MoodPlaylists.tsx:86-105 | the track becomes current and the screen reports playing whatever the hook's outcome; with an element the hook plays, reloads the track's url at 0 only for a new id (otherwise keeping the position unless an ended element restarts), counts a fallback iff loading or `play()` failed and leaves the element paused accordingly; without one the hook is untouched; volume, duration and the hook's time are kept |
| MoodPlaylists.MoodPlaylistsScreen.TogglePlayback | src/components/MoodPlaylists.tsx:107-117 | playing pauses the screen and (with an element) the hook and its element, position kept; paused resumes only with a current track and is then reported playing, while the hook plays only when it has an element and a track and `play()` resolves (an ended element restarting at 0), and is otherwise untouched; tracks, times, length, volume, fallback count and element presence are kept |
| MoodPlaylists.MoodPlaylistsScreen.NextTrack | src/components/MoodPlaylists.tsx:119-123 | the current track becomes the next selection; playback is not touched |
| MoodPlaylists.MoodPlaylistsScreen.PreviousTrack | src/components/MoodPlaylists.tsx:125-129 | the current track becomes the previous selection; playback is not touched |
| MemoryTracks.EmptyForm | src/components/MemoryTracks.tsx:50-56 | empty title, song, artist and note, with emotion joy |
| MemoryTracks.InitialMemories | src/components/MemoryTracks.tsx:16-47 | the three starting memories (stated by InitialMemoriesShape) |
| MemoryTracks.InitialMemoriesShape | src/components/MemoryTracks.tsx:16-47 | three memories with distinct ids 1, 2, 3 |
| MemoryTracks.FormComplete | src/components/MemoryTracks.tsx:77 | the add guard: title, song and artist non-empty, the note may be empty |
| MemoryTracks.FromForm | src/components/MemoryTracks.tsx:78-83 | the new memory carries the form's title, song, artist, note and emotion plus the given id, date and photo flag |
| MemoryTracks.WithField | src/components/MemoryTracks.tsx:194-243 | an input's change handler replaces its own field |
| MemoryTracks.WithFieldSetsOnlyThatField | src/components/MemoryTracks.tsx:194-243 | an edit sets its field and leaves the other four alone |
| MemoryTracks.RemoveId | src/components/MemoryTracks.tsx:92 | exactly the entries with the id are removed: each other entry keeps its multiplicity |
| MemoryTracks.RemoveIdAppend | src/components/MemoryTracks.tsx:92 | deletion distributes over concatenation, so the kept entries stay in order |
| MemoryTracks.RemoveAbsentId | src/components/MemoryTracks.tsx:92 | deleting an absent id is a no-op |
| MemoryTracks.RemoveIdIdempotent | src/components/MemoryTracks.tsx:92 | deleting twice is deleting once |
| MemoryTracks.DeleteUndoesAdd | src/components/MemoryTracks.tsx:85-92 | deleting a memory just added with a fresh id restores the list |
| MemoryTracks.MemoryJournal.constructor | src/components/MemoryTracks.tsx:16-56 | the initial memories, an empty form, the modal closed |
| MemoryTracks.MemoryJournal.OpenAddModal | src/components/MemoryTracks.tsx:106 | opens the modal, keeping the form |
| MemoryTracks.MemoryJournal.CloseModal | src/components/MemoryTracks.tsx:253 | closes the modal without clearing the form |
| MemoryTracks.MemoryJournal.EditField | src/components/MemoryTracks.tsx:194-243 | one field of the form changes |
| MemoryTracks.MemoryJournal.AddMemory | src/components/MemoryTracks.tsx:76-89 | with title, song and artist non-empty, the new memory goes in front of the unchanged old list, the form resets and the modal closes; otherwise nothing changes |
| MemoryTracks.MemoryJournal.DeleteMemory | src/components/MemoryTracks.tsx:91-93 | the list becomes the old one without the id's entries |
| MemoryTracks.AddThenDelete | src/components/MemoryTracks.tsx:76-93 | a successful add with a fresh id followed by deleting it leaves the list as it was |
| SpotifyPlayer.NatToString | src/components/SpotifyPlayer.tsx:96 | decimal digits without leading zeros, one digit exactly below 10 |
| SpotifyPlayer.NatToStringValue | src/components/SpotifyPlayer.tsx:96 | the digits read back as the number |
| SpotifyPlayer.PadTwo | src/components/SpotifyPlayer.tsx:96 | seconds below 60 padded to exactly two digits |
| SpotifyPlayer.PadTwoValue | src/components/SpotifyPlayer.tsx:96 | the padded digits read back as the seconds |
| SpotifyPlayer.FormatTime | src/components/SpotifyPlayer.tsx:93-97 | a digit field, a colon, then a two-digit field |
| SpotifyPlayer.FormatTimeFields | src/components/SpotifyPlayer.tsx:93-97 | the seconds field is two digits worth s mod 60 < 60, the minutes field reads s div 60, and mins*60 + secs = s |
| SpotifyPlayer.FormatTimeRoundTrip | src/components/SpotifyPlayer.tsx:93-97 | parsing a label gives back the seconds it was made from |
| SpotifyPlayer.FormatTimeInjective | src/components/SpotifyPlayer.tsx:93-97 | different durations get different labels |
| SpotifyPlayer.FormatTimeExamples | src/components/SpotifyPlayer.tsx:93-97 | 180 s reads 3:00, 65 s reads 1:05, 0 s reads 0:00 |
| SpotifyPlayer.TrackDuration | src/components/SpotifyPlayer.tsx:48 | the hook's duration unless it is zero, else the track's |
| SpotifyPlayer.ProgressPercent | src/components/SpotifyPlayer.tsx:50 | progress times length equals position times 100 |
| SpotifyPlayer.ProgressWithinBar | src/components/SpotifyPlayer.tsx:47-52 | a position within the track gives a percentage in [0,100], 0 exactly at the start and 100 exactly at the end |
| SpotifyPlayer.VolumeToSlider | src/components/SpotifyPlayer.tsx:229 | a volume in [0,1] shows as a slider value in [0,100] |
| SpotifyPlayer.SliderToVolume | src/components/SpotifyPlayer.tsx:109-112 | a slider value in 0..100 becomes value/100, in [0,1] |
| SpotifyPlayer.SliderVolumeRoundTrip | src/components/SpotifyPlayer.tsx:225-229 | the two scales are inverse, and the hook's clamp leaves a slider volume unchanged |
| SpotifyPlayer.PlayerView.constructor | src/components/SpotifyPlayer.tsx:42-44 | progress 0, shuffle and repeat off |
| SpotifyPlayer.PlayerView.SyncProgress | src/components/SpotifyPlayer.tsx:47-52 | with a positive length (the fallback applied) progress follows the position; otherwise it is kept |
| SpotifyPlayer.PlayerView.ToggleShuffle | src/components/SpotifyPlayer.tsx:114-116 | flips shuffle only |
| SpotifyPlayer.PlayerView.ToggleRepeat | src/components/SpotifyPlayer.tsx:118-120 | flips repeat only |
| SpotifyPlayer.ToggleTwiceRestores | src/components/SpotifyPlayer.tsx:114-120 | pressing each toggle twice restores the flags |
| SpotifyPlayer.SlideVolume | src/components/SpotifyPlayer.tsx:109-112 | moving the slider stores value/100 as the hook's volume, unclamped by the hook |

## Left out

- Timer cadences and wall-clock time. The spawn, clock and move intervals (every 60/171 s, 0.1 s and 50 ms) are discrete method calls. Their interleaving is free.
- Rhythm.RhythmGame.ClockTick: adds exactly 1/10 as a real number; the binary floating-point drift of repeated `+ 0.1` is not modelled.
- SpotifyPlayer.ProgressPercent: computed exactly over real numbers. The program computes `(currentTime / trackDuration) * 100` in IEEE doubles, whose result can be one unit in the last place off the exact percentage.
- SpotifyPlayer.SliderToVolume: `v * 100 == value` holds over reals only. In doubles `Number(value) / 100 * 100` is off by one unit in the last place for some slider values (7 gives 7.000000000000001).
- SpotifyPlayer.SliderVolumeRoundTrip: an exact round trip over reals. In doubles it fails for the slider values 7, 14, 28, 29, 55, 56, 57 and 58 by one unit in the last place; the range input re-sanitises its value (line 229) and the percentage label rounds it (`Math.round`, line 234).
- SpotifyPlayer.SlideVolume: `VolumeToSlider(player.volume) == value` is the exact real round trip; in doubles it is off by one unit in the last place for the same slider values.
- Rhythm.Points: computed over real numbers; the game's positions are whole numbers, so the floating-point formula is exact on every position the game produces.
- React's deferred state updates and stale closures. `handleBeatHit` reads `beats` from the render's closure; the model runs each handler against the current state, sequentially.
- The 5-second readiness timeout and the promise plumbing of `playTrack` become the `readiness` and `playResolves` parameters. The fallback's two-second beep loop is left out, because it is Web Audio synthesis. So are `playNotificationSound` and `playBeatSound`.
- Audio.AudioPlayer.PlayTrack: the fallback's ten-second timer is the separate event `FallbackExpired`, which may arrive at any later point.
- Element events are modelled through the React state and element fields they update. They are separate methods that may arrive in any order; in a browser `loadedmetadata` comes before `canplay`, which `PlayTrack` does not enforce. `console` logging and the `canplay` log handler are left out.
- Audio.AudioPlayer.Seek: clamps to the whole resource, [0, length]; a browser clamps to the element's seekable ranges, which for a partially buffered stream may be smaller.
- `audio.duration` can be NaN before metadata loads; durations here are real numbers, and `duration || track.duration` treats only 0 as missing.
- The hook's unmount cleanup (removing listeners, pausing) is left out; the element lives as long as the player.
- The catalogue's `url` column is kept out of the record, in the lookup `TrackUrl`, so that the long literals stay out of the proofs about the table; the `image` column is left out altogether, since no modelled operation reads it.
- `getRandomTracks` is left out, because it sorts with a random comparator.
- The mood screen's `isGenerating` flag, the 1.5-second generation delay and the notification sound after it are left out. So are the mood cards' icons and colours.
- `new Date().getHours()` becomes the `hour` parameter of `SuggestedMood`.
- `Date.now()` ids, `new Date().toISOString()` dates and the `Math.random()` photo flag become parameters of `AddMemory`.
- The emotion colour and icon maps of the journal are presentation and left out.
- SpotifyPlayer.FormatTime: takes whole non-negative seconds; the source also floors fractional and accepts negative numbers.
- The progress bar's click geometry (`handleProgressClick`) and the canvas visualizer are DOM and floating-point code and left out.
- The player widget's buttons that forward to callbacks (`onPlayPause`, `onNext`, `onPrevious`) are modelled by the screen methods they call.
- Microphone recording, the remix lab, authentication and the pure rendering components are not part of this model.
