# Album playback model

A Dafny model of the playback logic of the `Album` view of a React music player
(bloc-jams-react). The view shows one album's songs. It owns one HTML audio
element and keeps five pieces of state: the current song, the elapsed time, the
duration, the volume and a playing flag. Clicks on a song row, the
play/pause button, the previous and next buttons, the seek bar and the volume
slider call handlers. These handlers command the audio element and update the
state. Three listeners copy the element's position, duration and volume back
into the state. A pure `formatTime` renders seconds as `m:ss`.

The model has four modules:

- `TimeFormat` (`time_format.dfy`): `formatTime` for whole seconds, as a function. Lemmas say what text it produces and what that text reads back as.
- `Playback` (`playback.dfy`): the state as a value (`Snapshot`). It has one function per handler, giving the state that handler leaves behind. The lemmas say what the handlers promise: clamping, the toggle rule, the invariant over any sequence of inputs, and silence after teardown.
- `AlbumComponent` (`album_component.dfy`): the component as a class. Its fields are the state fields and the audio element. Its methods are the handlers and update those fields in place. Each method is proved to produce exactly the state the matching `Playback` function gives, and to keep the invariant `Valid()`. `FindIndex` is the `findIndex` search, written as a loop.
- `Wrappers` (`wrappers.dfy`): an `Option` type for the element's source, which teardown clears.

Songs are objects (`class Song` with constant fields), because the component
compares songs by reference (`currentSong === song`). The current song is a
reference into the album's song list. The audio element is a record of the
fields the component touches: `src`, `currentTime`, `duration`, `volume`, and
the `paused` flag that its `play()` and `pause()` set. React's `setState` is
modelled as immediate assignment. Each handler reads `this.state` only before
its first update, so batching does not change the outcome.

The model follows the code in three places where one might expect otherwise:

- Selecting a song (`setSong`) does not reset the elapsed time. `Playback.SetSong` proves that `currentTime` is untouched.
- The previous and next buttons assign the element's source even when the song does not change.
- The playing flag is set on every `play()` call, whether or not the element actually starts.

## Model

| member | source | states |
|---|---|---|
| `TimeFormat.FormatTime` | src/components/Album.js:120-130 | the text is digits, a colon, and exactly two digits after the colon |
| `TimeFormat.ClockFields` | src/components/Album.js:121-123 | the floor divisions and subtractions give the whole hours, the minutes within the hour (below 60) and the seconds within the minute |
| `TimeFormat.NatToString` | src/components/Album.js:127-128 | a number renders as one or more decimal digits with no leading zero; one digit exactly below 10, at most two below 100 |
| `TimeFormat.DecimalRoundTrip` | src/components/Album.js:127-128 | reading a rendered number back gives the number |
| `TimeFormat.PaddedSeconds` | src/components/Album.js:128 | below 60, the seconds field (a "0" prefixed below 10) is exactly the two digits of the number |
| `TimeFormat.FormatTimeShape` | src/components/Album.js:120-129 | the text is the minutes within the hour, unpadded, then ":", then the seconds within the minute padded to two digits |
| `TimeFormat.FormatTimeFields` | src/components/Album.js:120-129 | the two fields of the text read back as `(s mod 3600) div 60` and `s mod 60` |
| `TimeFormat.FormatTimeInjectiveWithinHour` | src/components/Album.js:120-129 | two times below one hour that render alike are equal |
| `TimeFormat.FormatTimeDropsHours` | src/components/Album.js:121-129 | hours are computed but never shown: `s` and `s + 3600` render the same |
| `TimeFormat.FormatTimeMinutesUnpadded` | src/components/Album.js:127 | the minutes field has one digit exactly below ten minutes, and never a padding zero |
| `TimeFormat.FormatTime65` | src/components/Album.js:120-129 | 65 seconds render as "1:05" |
| `TimeFormat.FormatTime5` | src/components/Album.js:120-129 | 5 seconds render as "0:05" |
| `TimeFormat.FormatTime600` | src/components/Album.js:120-129 | 600 seconds render as "10:00" |
| `TimeFormat.FormatTime3605` | src/components/Album.js:120-129 | 3605 seconds render as "0:05", the hour dropped |
| `Playback.Init` | src/components/Album.js:13-23 | the constructor as written: first song current, time 0, the first song's nominal duration, volume .80, not playing, element source the first song's, the element's other fields untouched |
| `Playback.InitVolumeSynced` | src/components/Album.js:18-23 | the corrected constructor: `Init` with the element's volume also set to .80 |
| `Playback.InitConsistent` | src/components/Album.js:13-23 | on a paused new element both initial states satisfy the invariant, and the corrected one has the element's volume equal to the shown volume |
| `Playback.InitVolumeOutOfSync` | src/components/Album.js:18-22 | as written, a new element (volume 1.0) plays at 1.0 while the state shows .80 |
| `Playback.Mount` | src/components/Album.js:27-48 | mounting registers the listeners and changes nothing else |
| `Playback.Unmount` | src/components/Album.js:50-55 | teardown clears the element's source and removes the listeners, and changes nothing else |
| `Playback.Play` | src/components/Album.js:57-62 | the element is unpaused and the state says playing; nothing else changes |
| `Playback.Pause` | src/components/Album.js:64-69 | the element is paused and the state says not playing; nothing else changes |
| `Playback.SetSong` | src/components/Album.js:71-76 | only the current song and the element's source change; time, duration, volume and playing flag do not |
| `Playback.SongClick` | src/components/Album.js:78-86 | afterwards the clicked song is current, and it plays exactly unless it was the current song and already playing |
| `Playback.IndexOf` | src/components/Album.js:89 | `findIndex` by reference: the first index holding the song, or -1 exactly when the song is absent |
| `Playback.PreviousIndex` | src/components/Album.js:90 | `max(0, i - 1)`: a valid index, 0 from the first song or a missing one, otherwise one less |
| `Playback.NextIndex` | src/components/Album.js:98 | `min(len - 1, i + 1)`: a valid index, unchanged at the last song, otherwise one more |
| `Playback.PreviousClick` | src/components/Album.js:88-94 | the new current song is one of the album's and the state says playing |
| `Playback.NextClick` | src/components/Album.js:96-102 | the new current song is one of the album's and the state says playing |
| `Playback.TimeChange` | src/components/Album.js:104-110 | the element's position and the state's time both become the element's duration times the fraction; nothing else changes |
| `Playback.VolumeChange` | src/components/Album.js:112-118 | the element's volume and the state's volume both become the level; nothing else changes |
| `Playback.OnTimeUpdate` | src/components/Album.js:29-33 | the state's time becomes the element's position; nothing else changes |
| `Playback.OnDurationChange` | src/components/Album.js:34-38 | the state's duration becomes the element's duration; nothing else changes |
| `Playback.OnVolumeChange` | src/components/Album.js:39-43 | the state's volume becomes the element's volume; nothing else changes |
| `Playback.Deliver` | src/components/Album.js:45-54 | a notification changes nothing unless the listeners are registered, and never the song, the element or the phase |
| `Playback.StepConsistent` | src/components/Album.js:71-118 | every handler keeps the current song in the album, the element on that song's source and the playing flag equal to "not paused"; it keeps volume agreement and leaves the phase alone |
| `Playback.RunConsistent` | src/components/Album.js:150-177 | any sequence of clicks, seeks, volume changes and notifications from the view keeps the invariant and the volume agreement |
| `Playback.LifecycleConsistent` | src/components/Album.js:27-55 | mounting and teardown keep the invariant |
| `Playback.NoNotificationAfterUnmount` | src/components/Album.js:50-55 | after teardown, any number of notifications leave the state unchanged |
| `Playback.IndexOfDistinct` | src/components/Album.js:89-91 | with distinct songs, the search finds the i-th song at index i |
| `Playback.NextClickMoves` | src/components/Album.js:96-102 | from song i, next selects song i+1, or stays on the last song, and plays |
| `Playback.PreviousClickMoves` | src/components/Album.js:88-94 | from song i, previous selects song i-1, or stays on the first song, and plays |
| `Playback.NextThroughThreeSongs` | src/components/Album.js:96-102 | with three songs, next twice from the start reaches the third song and a third next stays there |
| `Playback.SongClickToggles` | src/components/Album.js:78-86 | from paused, clicking the current song plays it, and a second click pauses it on the same song, the same state as `pause` |
| `Playback.SeekToMiddle` | src/components/Album.js:104-110 | seeking to 0.5 puts the element and the state at half the element's duration |
| `AlbumComponent.FindIndex` | src/components/Album.js:89 | the left-to-right search returns what `IndexOf` specifies |
| `AlbumComponent.Album.constructor` | src/components/Album.js:13-23 | the new component is valid and in the state `InitVolumeSynced` describes |
| `AlbumComponent.Album.ComponentDidMount` | src/components/Album.js:27-48 | the state becomes `Mount` of the old state |
| `AlbumComponent.Album.ComponentWillUnmount` | src/components/Album.js:50-55 | the state becomes `Unmount` of the old state |
| `AlbumComponent.Album.Play` | src/components/Album.js:57-62 | the state becomes `Play` of the old state, and stays valid |
| `AlbumComponent.Album.Pause` | src/components/Album.js:64-69 | the state becomes `Pause` of the old state, and stays valid |
| `AlbumComponent.Album.SetSong` | src/components/Album.js:71-76 | the state becomes `SetSong` of the old state, and stays valid |
| `AlbumComponent.Album.HandleSongClick` | src/components/Album.js:78-86 | the state becomes `SongClick` of the old state, and stays valid |
| `AlbumComponent.Album.HandlePreviousClick` | src/components/Album.js:88-94 | the state becomes `PreviousClick` of the old state, and stays valid |
| `AlbumComponent.Album.HandleNextClick` | src/components/Album.js:96-102 | the state becomes `NextClick` of the old state, and stays valid |
| `AlbumComponent.Album.HandleTimeChange` | src/components/Album.js:104-110 | the state becomes `TimeChange` of the old state, and stays valid |
| `AlbumComponent.Album.HandleVolumeChange` | src/components/Album.js:112-118 | the state becomes `VolumeChange` of the old state, and stays valid |
| `AlbumComponent.Album.OnTimeUpdate` | src/components/Album.js:29-33 | the state becomes `OnTimeUpdate` of the old state, and stays valid |
| `AlbumComponent.Album.OnDurationChange` | src/components/Album.js:34-38 | the state becomes `OnDurationChange` of the old state, and stays valid |
| `AlbumComponent.Album.OnVolumeChange` | src/components/Album.js:39-43 | the state becomes `OnVolumeChange` of the old state, and stays valid |
| `AlbumComponent.Album.Deliver` | src/components/Album.js:45-54 | the state becomes `Deliver` of the old state: a listener runs only while mounted |

## Left out

- `render`, the JSX layout and the `PlayerBar` props (132-179) are presentation. The model keeps only what that wiring does: which handlers the view calls and with which songs. `Playback.Input` and `Playback.FromAlbum` capture this.
- The album lookup by slug (9-11) reads a data module that is not part of this model. The album is a constructor argument with at least one song. The original crashes on line 15 when no album matches.
- The platform's `document.createElement('audio')` becomes a constructor argument. It is required to be paused, as a new element is.
- Real audio-element behaviour is left out: decoding, buffering, whether `play()` succeeds, and when events fire. So are the element's own changes: its position advancing, and pausing itself when a track ends. Such a self-pause would leave `isPlaying` true, because the component has no listener for it. The load that assigning `src` starts (resetting the position, pausing) is also left out. Every `setSong` is followed by `play()`, so the final pause flag is the same either way.
- `Playback.Unmount` models `src = null` as clearing the source (`None`). The element's own handling of that value is not modelled.
- Times, durations and volumes are exact `real`s, not floating point. The element reports its duration as not-a-number before metadata loads. Seeking at that point would assign not-a-number, which a real element rejects. Neither case is modelled.
- A real element rejects a volume outside [0, 1]. Like the original, the handlers do not validate their inputs, and the model accepts any value.
- Slider values arrive as strings (`e.target.value`). The original stores the volume string in the state until the next `volumechange` copies the number back. The model takes numbers.
- `TimeFormat.FormatTime`: only whole seconds are modelled. `Math.round` is then the identity. The fractional case, where for example 59.6 seconds prints ":60", is not modelled.
- The extra argument passed to `play(newSong)` (93, 101) is ignored by `play` and is not modelled.
- `AlbumComponent.Album.constructor`: it also sets the element's volume to .80, unlike the original. This is the correction described under Findings. `Playback.Init` keeps the behaviour as written.

## Findings

| source | as written | input that shows it | evidently intended | confidence | as-written member | corrected member |
|---|---|---|---|---|---|---|
| src/components/Album.js:18-23 | the state's volume starts at .80, but the audio element's volume is never set | construct the view on a new element (volume 1.0) and play without touching the slider: the slider shows 80% while the element plays at 100% | the element starts at the .80 the state shows | medium; not executed | `Playback.InitVolumeOutOfSync` | `Playback.InitVolumeSynced` |
