/** The `Album` component: its state fields, its audio element and its handlers,
    updated in place. Each handler is proved to leave exactly the state that the
    corresponding function of module Playback describes, and to keep the
    component's invariant. */
module AlbumComponent {
  import opened Wrappers
  import opened Playback

  /** `songs.findIndex(song => currentSong === song)`: a left-to-right search
      by reference. */
  method FindIndex(songs: seq<Song>, song: Song) returns (k: int)
    ensures k == IndexOf(songs, song)
  {
    k := 0;
    while k < |songs| && songs[k] != song
      invariant 0 <= k <= |songs|
      invariant forall j :: 0 <= j < k ==> songs[j] != song
    {
      k := k + 1;
    }
    if k == |songs| {
      k := -1;
    }
  }

  class Album {
    const album: AlbumData
    var currentSong: Song
    var currentTime: real
    var duration: real
    var volume: real
    var isPlaying: bool
    var audioElement: AudioElement
    var phase: Phase

    /** The component's state as a value. */
    ghost function State(): Snapshot
      reads this
    {
      Snapshot(currentSong, currentTime, duration, volume, isPlaying, audioElement, phase)
    }

    ghost predicate Valid()
      reads this
    {
      && |album.songs| > 0
      && Consistent(State(), album.songs)
      && VolumeInSync(State())
    }

    /** Builds the component for an album with at least one song, on an audio
        element as the platform creates it (paused). Unlike the original, the
        element's volume is set to the .80 the state shows. */
    constructor (album: AlbumData, created: AudioElement)
      requires |album.songs| > 0 && created.paused
      ensures Valid() && this.album == album
      ensures State() == InitVolumeSynced(album, created)
    {
      this.album := album;
      currentSong := album.songs[0];
      currentTime := 0.0;
      duration := album.songs[0].duration;
      volume := 0.80;
      isPlaying := false;
      audioElement := created.(src := Some(album.songs[0].audioSrc), volume := 0.80);
      phase := Constructed;
    }

    method ComponentDidMount()
      requires Valid() && phase == Constructed
      modifies this
      ensures Valid() && State() == Mount(old(State()))
    {
      phase := Mounted;
    }

    method ComponentWillUnmount()
      requires Valid() && phase == Mounted
      modifies this
      ensures Valid() && State() == Unmount(old(State()))
    {
      audioElement := audioElement.(src := None);
      phase := Unmounted;
    }

    method Play()
      requires Valid()
      modifies this
      ensures Valid() && State() == Playback.Play(old(State()))
    {
      audioElement := audioElement.(paused := false);
      isPlaying := true;
    }

    method Pause()
      requires Valid()
      modifies this
      ensures Valid() && State() == Playback.Pause(old(State()))
    {
      audioElement := audioElement.(paused := true);
      isPlaying := false;
    }

    method SetSong(song: Song)
      requires Valid() && song in album.songs
      modifies this
      ensures Valid() && State() == Playback.SetSong(old(State()), song)
    {
      audioElement := audioElement.(src := Some(song.audioSrc));
      currentSong := song;
    }

    method HandleSongClick(song: Song)
      requires Valid() && song in album.songs
      modifies this
      ensures Valid() && State() == SongClick(old(State()), song)
    {
      var isSameSong := currentSong == song;
      if isPlaying && isSameSong {
        Pause();
      } else {
        if !isSameSong {
          SetSong(song);
        }
        Play();
      }
    }

    method HandlePreviousClick()
      requires Valid()
      modifies this
      ensures Valid() && State() == PreviousClick(old(State()), album.songs)
    {
      var currentIndex := FindIndex(album.songs, currentSong);
      var newIndex := if 0 < currentIndex - 1 then currentIndex - 1 else 0;
      var newSong := album.songs[newIndex];
      SetSong(newSong);
      Play();
    }

    method HandleNextClick()
      requires Valid()
      modifies this
      ensures Valid() && State() == NextClick(old(State()), album.songs)
    {
      var currentIndex := FindIndex(album.songs, currentSong);
      var newIndex := if |album.songs| - 1 < currentIndex + 1 then |album.songs| - 1 else currentIndex + 1;
      var newSong := album.songs[newIndex];
      SetSong(newSong);
      Play();
    }

    method HandleTimeChange(fraction: real)
      requires Valid()
      modifies this
      ensures Valid() && State() == TimeChange(old(State()), fraction)
    {
      var newTime := audioElement.duration * fraction;
      audioElement := audioElement.(currentTime := newTime);
      currentTime := newTime;
    }

    method HandleVolumeChange(level: real)
      requires Valid()
      modifies this
      ensures Valid() && State() == VolumeChange(old(State()), level)
    {
      var newVolume := level;
      audioElement := audioElement.(volume := newVolume);
      volume := newVolume;
    }

    /** The timeupdate listener. */
    method OnTimeUpdate()
      requires Valid()
      modifies this
      ensures Valid() && State() == Playback.OnTimeUpdate(old(State()))
    {
      currentTime := audioElement.currentTime;
    }

    /** The durationchange listener. */
    method OnDurationChange()
      requires Valid()
      modifies this
      ensures Valid() && State() == Playback.OnDurationChange(old(State()))
    {
      duration := audioElement.duration;
    }

    /** The volumechange listener. */
    method OnVolumeChange()
      requires Valid()
      modifies this
      ensures Valid() && State() == Playback.OnVolumeChange(old(State()))
    {
      volume := audioElement.volume;
    }

    /** The element fires `e`; it reaches a listener only while they are registered. */
    method Deliver(e: MediaEvent)
      requires Valid()
      modifies this
      ensures Valid() && State() == Playback.Deliver(old(State()), e)
    {
      if phase == Mounted {
        match e
        case TimeUpdateEvent => OnTimeUpdate();
        case DurationChangeEvent => OnDurationChange();
        case VolumeChangeEvent => OnVolumeChange();
      }
    }
  }
}
