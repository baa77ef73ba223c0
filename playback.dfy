/** The playback state of the `Album` component as a value, and one function per
    handler giving the state that handler leaves behind. The class in module
    AlbumComponent is proved against these functions; the lemmas here state what
    the handlers promise, singly and over any sequence of user inputs. */
module Playback {
  import opened Wrappers

  /** A track of the album. The component compares songs by reference
      (`currentSong === song`), so a song is an object, and two songs with equal
      fields are still different songs. */
  class Song {
    const title: string
    const duration: real
    const audioSrc: string

    constructor (title: string, duration: real, audioSrc: string)
      ensures this.title == title && this.duration == duration && this.audioSrc == audioSrc
    {
      this.title := title;
      this.duration := duration;
      this.audioSrc := audioSrc;
    }
  }

  /** An album record of the static catalog. Only `songs` takes part in playback. */
  datatype AlbumData = AlbumData(
    slug: string,
    title: string,
    artist: string,
    releaseInfo: string,
    albumCover: string,
    songs: seq<Song>)

  /** The fields of the audio element the component reads and writes. `src` is
      None once teardown has cleared it; `paused` is what the element's own
      play() and pause() commands set. */
  datatype AudioElement = AudioElement(
    src: Option<string>,
    currentTime: real,
    duration: real,
    volume: real,
    paused: bool)

  /** Where the component is in its lifecycle: the element's listeners are
      registered exactly while it is Mounted. */
  datatype Phase = Constructed | Mounted | Unmounted

  /** The three notifications the component listens to. */
  datatype MediaEvent = TimeUpdateEvent | DurationChangeEvent | VolumeChangeEvent

  /** The component's `this.state` (without the album, which never changes),
      its audio element, and its lifecycle phase. */
  datatype Snapshot = Snapshot(
    currentSong: Song,
    currentTime: real,
    duration: real,
    volume: real,
    isPlaying: bool,
    audio: AudioElement,
    phase: Phase)

  /** The songs are distinct objects, as the literal records of a catalog are. */
  predicate Distinct(songs: seq<Song>) {
    forall i, j :: 0 <= i < j < |songs| ==> songs[i] != songs[j]
  }

  /** The state invariant: the current song is one of the album's, the element
      plays the current song's source until teardown clears it, and the playing
      flag agrees with the element's pause flag. */
  predicate Consistent(s: Snapshot, songs: seq<Song>) {
    && s.currentSong in songs
    && (s.phase != Unmounted ==> s.audio.src == Some(s.currentSong.audioSrc))
    && s.isPlaying == !s.audio.paused
  }

  /** The volume shown in the state is the element's volume. */
  predicate VolumeInSync(s: Snapshot) {
    s.volume == s.audio.volume
  }

  // ---------------------------------------------------------------------------
  // Construction

  /** The constructor as written: state from the first song, volume .80, paused,
      and the element's source set to the first song's. The element's own
      volume is left as the freshly created element has it. */
  function Init(album: AlbumData, created: AudioElement): (s: Snapshot)
    requires |album.songs| > 0
    ensures s.currentSong == album.songs[0] && s.currentTime == 0.0
    ensures s.duration == album.songs[0].duration && s.volume == 0.80 && !s.isPlaying
    ensures s.audio == created.(src := Some(album.songs[0].audioSrc))
    ensures s.phase == Constructed
  {
    Snapshot(album.songs[0], 0.0, album.songs[0].duration, 0.80, false,
             created.(src := Some(album.songs[0].audioSrc)), Constructed)
  }

  /** Init corrected so that the element plays at the volume the state shows. */
  function InitVolumeSynced(album: AlbumData, created: AudioElement): (s: Snapshot)
    requires |album.songs| > 0
    ensures s == Init(album, created).(audio := Init(album, created).audio.(volume := 0.80))
  {
    var s := Init(album, created);
    s.(audio := s.audio.(volume := 0.80))
  }

  /** A newly created audio element is paused, so both initial states are consistent. */
  lemma InitConsistent(album: AlbumData, created: AudioElement)
    requires |album.songs| > 0 && created.paused
    ensures Consistent(Init(album, created), album.songs)
    ensures Consistent(InitVolumeSynced(album, created), album.songs)
    ensures VolumeInSync(InitVolumeSynced(album, created))
  {
  }

  /** As written, the constructor shows volume .80 while an element created at
      any other volume (1.0 for a new element) keeps playing at that volume. */
  lemma InitVolumeOutOfSync(album: AlbumData, created: AudioElement)
    requires |album.songs| > 0 && created.volume == 1.0
    ensures Init(album, created).volume == 0.80
    ensures Init(album, created).audio.volume == 1.0
    ensures !VolumeInSync(Init(album, created))
  {
  }

  // ---------------------------------------------------------------------------
  // Lifecycle

  /** componentDidMount: the three listeners are registered. */
  function Mount(s: Snapshot): (r: Snapshot)
    requires s.phase == Constructed
    ensures r.phase == Mounted && r.(phase := s.phase) == s
  {
    s.(phase := Mounted)
  }

  /** componentWillUnmount: the element's source is cleared and the listeners removed. */
  function Unmount(s: Snapshot): (r: Snapshot)
    requires s.phase == Mounted
    ensures r.phase == Unmounted && r.audio.src == None
    ensures r.(phase := s.phase, audio := s.audio) == s
    ensures r.audio.(src := s.audio.src) == s.audio
  {
    s.(phase := Unmounted, audio := s.audio.(src := None))
  }

  // ---------------------------------------------------------------------------
  // Commands

  /** play: the element is told to play and the state says playing. */
  function Play(s: Snapshot): (r: Snapshot)
    ensures r.isPlaying && !r.audio.paused
    ensures r.(isPlaying := s.isPlaying, audio := s.audio) == s
    ensures r.audio.(paused := s.audio.paused) == s.audio
  {
    s.(isPlaying := true, audio := s.audio.(paused := false))
  }

  /** pause: the element is told to pause and the state says not playing. */
  function Pause(s: Snapshot): (r: Snapshot)
    ensures !r.isPlaying && r.audio.paused
    ensures r.(isPlaying := s.isPlaying, audio := s.audio) == s
    ensures r.audio.(paused := s.audio.paused) == s.audio
  {
    s.(isPlaying := false, audio := s.audio.(paused := true))
  }

  /** setSong: the element's source and the current song change, and nothing
      else; in particular the elapsed time is not reset. */
  function SetSong(s: Snapshot, song: Song): (r: Snapshot)
    ensures r.currentSong == song && r.audio.src == Some(song.audioSrc)
    ensures r.currentTime == s.currentTime && r.duration == s.duration
    ensures r.volume == s.volume && r.isPlaying == s.isPlaying && r.phase == s.phase
    ensures r.audio.(src := s.audio.src) == s.audio
  {
    s.(currentSong := song, audio := s.audio.(src := Some(song.audioSrc)))
  }

  /** handleSongClick: a click on the song that is playing pauses it; any other
      click selects the song (unless it is already current) and plays. */
  function SongClick(s: Snapshot, song: Song): (r: Snapshot)
    ensures r.currentSong == song
    ensures r.isPlaying <==> !(s.isPlaying && s.currentSong == song)
  {
    var isSameSong := s.currentSong == song;
    if s.isPlaying && isSameSong then
      Pause(s)
    else
      Play(if !isSameSong then SetSong(s, song) else s)
  }

  /** Array.prototype.findIndex with the reference test: the index of the first
      occurrence of `song`, or -1 when there is none. */
  function IndexOf(songs: seq<Song>, song: Song): (k: int)
    ensures -1 <= k < |songs|
    ensures k == -1 <==> song !in songs
    ensures 0 <= k ==> songs[k] == song && forall j :: 0 <= j < k ==> songs[j] != song
  {
    if |songs| == 0 then -1
    else if songs[0] == song then 0
    else
      var k := IndexOf(songs[1..], song);
      if k == -1 then -1 else k + 1
  }

  /** Math.max(0, currentIndex - 1). */
  function PreviousIndex(currentIndex: int, length: nat): (k: nat)
    requires -1 <= currentIndex < length && 0 < length
    ensures k < length
    ensures currentIndex <= 0 ==> k == 0
    ensures 0 < currentIndex ==> k == currentIndex - 1
  {
    if currentIndex - 1 < 0 then 0 else currentIndex - 1
  }

  /** Math.min(songs.length - 1, currentIndex + 1). */
  function NextIndex(currentIndex: int, length: nat): (k: nat)
    requires -1 <= currentIndex < length && 0 < length
    ensures k < length
    ensures currentIndex == length - 1 ==> k == currentIndex
    ensures currentIndex < length - 1 ==> k == currentIndex + 1
  {
    if length - 1 < currentIndex + 1 then length - 1 else currentIndex + 1
  }

  /** handlePreviousClick: select the song before the current one, staying on
      the first, and play. */
  function PreviousClick(s: Snapshot, songs: seq<Song>): (r: Snapshot)
    requires |songs| > 0
    ensures r.currentSong in songs && r.isPlaying
  {
    var newSong := songs[PreviousIndex(IndexOf(songs, s.currentSong), |songs|)];
    Play(SetSong(s, newSong))
  }

  /** handleNextClick: select the song after the current one, staying on the
      last, and play. */
  function NextClick(s: Snapshot, songs: seq<Song>): (r: Snapshot)
    requires |songs| > 0
    ensures r.currentSong in songs && r.isPlaying
  {
    var newSong := songs[NextIndex(IndexOf(songs, s.currentSong), |songs|)];
    Play(SetSong(s, newSong))
  }

  /** handleTimeChange: the seek bar's fraction of the element's duration
      becomes both the element's position and the state's elapsed time. */
  function TimeChange(s: Snapshot, fraction: real): (r: Snapshot)
    ensures r.currentTime == r.audio.currentTime == s.audio.duration * fraction
    ensures r.(currentTime := s.currentTime, audio := s.audio) == s
    ensures r.audio.(currentTime := s.audio.currentTime) == s.audio
  {
    var newTime := s.audio.duration * fraction;
    s.(currentTime := newTime, audio := s.audio.(currentTime := newTime))
  }

  /** handleVolumeChange: the slider's level becomes both the element's volume
      and the state's volume. */
  function VolumeChange(s: Snapshot, level: real): (r: Snapshot)
    ensures r.volume == r.audio.volume == level
    ensures r.(volume := s.volume, audio := s.audio) == s
    ensures r.audio.(volume := s.audio.volume) == s.audio
  {
    s.(volume := level, audio := s.audio.(volume := level))
  }

  // ---------------------------------------------------------------------------
  // Notifications from the element

  /** The timeupdate listener: the state takes the element's position. */
  function OnTimeUpdate(s: Snapshot): (r: Snapshot)
    ensures r.currentTime == s.audio.currentTime && r.(currentTime := s.currentTime) == s
  {
    s.(currentTime := s.audio.currentTime)
  }

  /** The durationchange listener: the state takes the element's duration. */
  function OnDurationChange(s: Snapshot): (r: Snapshot)
    ensures r.duration == s.audio.duration && r.(duration := s.duration) == s
  {
    s.(duration := s.audio.duration)
  }

  /** The volumechange listener: the state takes the element's volume. */
  function OnVolumeChange(s: Snapshot): (r: Snapshot)
    ensures VolumeInSync(r) && r.(volume := s.volume) == s
  {
    s.(volume := s.audio.volume)
  }

  /** The element fires `e`: the listener for it runs if the listeners are
      registered, and nothing happens otherwise. */
  function Deliver(s: Snapshot, e: MediaEvent): (r: Snapshot)
    ensures s.phase != Mounted ==> r == s
    ensures r.phase == s.phase && r.audio == s.audio && r.currentSong == s.currentSong
  {
    if s.phase != Mounted then s
    else match e
      case TimeUpdateEvent => OnTimeUpdate(s)
      case DurationChangeEvent => OnDurationChange(s)
      case VolumeChangeEvent => OnVolumeChange(s)
  }

  // ---------------------------------------------------------------------------
  // Inputs from the view, and what any sequence of them keeps

  /** What the view and the element can do to a mounted component: a row or
      play/pause click, the previous and next buttons, the seek bar, the
      volume slider, and a notification from the element. */
  datatype Input =
    | ClickSong(song: Song)
    | ClickPrevious
    | ClickNext
    | Seek(fraction: real)
    | SetLevel(level: real)
    | Notify(event: MediaEvent)

  /** The view only clicks songs of the album (a row, or the current song). */
  predicate FromAlbum(input: Input, songs: seq<Song>) {
    input.ClickSong? ==> input.song in songs
  }

  function Step(s: Snapshot, songs: seq<Song>, input: Input): Snapshot
    requires |songs| > 0
  {
    match input
    case ClickSong(song) => SongClick(s, song)
    case ClickPrevious => PreviousClick(s, songs)
    case ClickNext => NextClick(s, songs)
    case Seek(fraction) => TimeChange(s, fraction)
    case SetLevel(level) => VolumeChange(s, level)
    case Notify(e) => Deliver(s, e)
  }

  function Run(s: Snapshot, songs: seq<Song>, inputs: seq<Input>): Snapshot
    requires |songs| > 0
    decreases |inputs|
  {
    if inputs == [] then s else Run(Step(s, songs, inputs[0]), songs, inputs[1..])
  }

  /** Every handler keeps the current song one of the album's, the element on
      that song's source, and the playing flag in agreement with the element,
      and none of them changes the lifecycle phase. */
  lemma StepConsistent(s: Snapshot, songs: seq<Song>, input: Input)
    requires |songs| > 0 && Consistent(s, songs) && FromAlbum(input, songs)
    ensures Consistent(Step(s, songs, input), songs)
    ensures Step(s, songs, input).phase == s.phase
    ensures VolumeInSync(s) ==> VolumeInSync(Step(s, songs, input))
  {
  }

  /** Any sequence of inputs keeps the invariant. */
  lemma {:induction false} RunConsistent(s: Snapshot, songs: seq<Song>, inputs: seq<Input>)
    requires |songs| > 0 && Consistent(s, songs)
    requires forall i :: 0 <= i < |inputs| ==> FromAlbum(inputs[i], songs)
    ensures Consistent(Run(s, songs, inputs), songs)
    ensures VolumeInSync(s) ==> VolumeInSync(Run(s, songs, inputs))
    decreases |inputs|
  {
    if inputs != [] {
      StepConsistent(s, songs, inputs[0]);
      RunConsistent(Step(s, songs, inputs[0]), songs, inputs[1..]);
    }
  }

  /** Mounting and teardown keep the invariant too. */
  lemma LifecycleConsistent(s: Snapshot, songs: seq<Song>)
    requires Consistent(s, songs)
    ensures s.phase == Constructed ==> Consistent(Mount(s), songs)
    ensures s.phase == Mounted ==> Consistent(Unmount(s), songs)
  {
  }

  /** After teardown no notification reaches the state, however many arrive. */
  lemma {:induction false} NoNotificationAfterUnmount(s: Snapshot, songs: seq<Song>, events: seq<MediaEvent>)
    requires |songs| > 0 && s.phase == Unmounted
    ensures Run(s, songs, seq(|events|, i requires 0 <= i < |events| => Notify(events[i]))) == s
    decreases |events|
  {
    var inputs := seq(|events|, i requires 0 <= i < |events| => Notify(events[i]));
    if events != [] {
      assert inputs[1..] == seq(|events[1..]|, i requires 0 <= i < |events[1..]| => Notify(events[1..][i]));
      NoNotificationAfterUnmount(s, songs, events[1..]);
    }
  }

  // ---------------------------------------------------------------------------
  // Previous and next

  /** In an album of distinct songs, the index of the i-th song is i. */
  lemma IndexOfDistinct(songs: seq<Song>, i: nat)
    requires Distinct(songs) && i < |songs|
    ensures IndexOf(songs, songs[i]) == i
  {
  }

  /** Next moves one song on, and at the last song stays on it; either way it plays. */
  lemma NextClickMoves(s: Snapshot, songs: seq<Song>, i: nat)
    requires Distinct(songs) && i < |songs| && s.currentSong == songs[i]
    ensures NextClick(s, songs).currentSong == songs[if i == |songs| - 1 then i else i + 1]
    ensures NextClick(s, songs).isPlaying
  {
    IndexOfDistinct(songs, i);
  }

  /** Previous moves one song back, and at the first song stays on it; either way it plays. */
  lemma PreviousClickMoves(s: Snapshot, songs: seq<Song>, i: nat)
    requires Distinct(songs) && i < |songs| && s.currentSong == songs[i]
    ensures PreviousClick(s, songs).currentSong == songs[if i == 0 then 0 else i - 1]
    ensures PreviousClick(s, songs).isPlaying
  {
    IndexOfDistinct(songs, i);
  }

  /** With three songs, next twice from the start reaches the third song, and
      next once more stays there. */
  lemma NextThroughThreeSongs(album: AlbumData, created: AudioElement)
    requires |album.songs| == 3 && Distinct(album.songs)
    ensures var s1 := NextClick(Init(album, created), album.songs);
            var s2 := NextClick(s1, album.songs);
            var s3 := NextClick(s2, album.songs);
            s1.currentSong == album.songs[1] &&
            s2.currentSong == album.songs[2] &&
            s3.currentSong == album.songs[2] && s3.isPlaying
  {
    var songs := album.songs;
    var s1 := NextClick(Init(album, created), songs);
    NextClickMoves(Init(album, created), songs, 0);
    NextClickMoves(s1, songs, 1);
    NextClickMoves(NextClick(s1, songs), songs, 2);
  }

  // ---------------------------------------------------------------------------
  // The play/pause toggle

  /** Clicking the current song twice from paused plays and then pauses it,
      without changing the song. */
  lemma SongClickToggles(s: Snapshot)
    requires !s.isPlaying
    ensures SongClick(s, s.currentSong).isPlaying
    ensures !SongClick(SongClick(s, s.currentSong), s.currentSong).isPlaying
    ensures SongClick(SongClick(s, s.currentSong), s.currentSong).currentSong == s.currentSong
    ensures SongClick(SongClick(s, s.currentSong), s.currentSong) == Pause(s)
  {
  }

  /** Seeking to the middle puts both the element and the state at half the
      element's duration. */
  lemma SeekToMiddle(s: Snapshot)
    ensures TimeChange(s, 0.5).currentTime == s.audio.duration / 2.0
    ensures TimeChange(s, 0.5).audio.currentTime == s.audio.duration / 2.0
  {
  }
}
