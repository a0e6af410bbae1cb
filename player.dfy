/** The `TrackPlayer` object: its fields, the start-up sequence, the display
    and navigation methods, the input callbacks that fill the command queue
    and the `main` loop that empties it. Each consumer-side method is proved
    to do to the fields what the matching Controller function does to a
    State. */
module Player {
  import opened Results
  import opened Text
  import opened Catalog
  import opened Layout
  import opened Navigator
  import opened SettingsStore
  import opened Clock
  import opened Controller

  /** The method ended as the outcome r says: without a fault and in r's
      state, or with r's fault. */
  predicate Reached(r: Result<State, Fault>, st: State, fault: Option<Fault>) {
    if r.Ok? then fault.None? && st == r.value else fault == Some(r.error)
  }

  class TrackPlayer {
    var mode: Mode
    var playing: bool
    var trackNumber: int
    var trackCount: int
    var playlistNumber: int
    var playlistCount: int
    var tracks: seq<Playlist>
    var track: Option<Track>
    var trackLength: int
    var trackPlaytime: int
    var lastTrack: int
    var currentTrack: Option<Track>
    const volumeLeft: Num
    const volumeRight: Num
    var footswitchNextState: bool
    var footswitchPrevState: bool
    var commandQueue: seq<Command>
    /** What the display shows. */
    var screen: Screen
    /** The transport and timer calls made so far. */
    var effects: seq<Effect>

    /** The fields the control loop owns, as a Controller state. */
    function Abs(): State
      reads this
    {
      State(mode, playing, playlistNumber, playlistCount, trackNumber, trackCount, lastTrack,
            trackPlaytime, tracks, track, trackLength, currentTrack, screen, effects)
    }

    /** `__init__` up to and including `read_settings`, given the values
        `read_settings` found: the two saved positions (integers here, see
        `NewTrackPlayer`), the two volumes, and whether the file was read. */
    constructor (savedPlaylist: int, savedTrack: int, savedVolumeLeft: Num, savedVolumeRight: Num, settingsFound: bool)
      ensures Abs() == Initial(savedPlaylist, savedTrack, settingsFound)
      ensures volumeLeft == savedVolumeLeft && volumeRight == savedVolumeRight
      ensures commandQueue == [] && !footswitchNextState && !footswitchPrevState
    {
      volumeLeft := savedVolumeLeft;
      volumeRight := savedVolumeRight;
      commandQueue := [];
      playing := false;
      trackCount := 0;
      playlistCount := 0;
      tracks := [];
      track := None;
      trackLength := 0;
      trackPlaytime := 0;
      lastTrack := 0;
      currentTrack := None;
      footswitchNextState := false;
      footswitchPrevState := false;
      mode := IdleMode;
      effects := [];
      // the message written before reading, replaced by the error report
      // when the file cannot be opened
      screen := if settingsFound then Screen("Reading settings...", "", "", "")
                else Screen("settings JSON file loading failed", "", "", "");
      playlistNumber := savedPlaylist;
      trackNumber := savedTrack;
    }

    /** `read_tracks`, given the parsed catalog file (None when it cannot be
        opened). */
    method ReadTracks(catalogFile: Option<seq<Playlist>>) returns (fault: Option<Fault>)
      modifies this`screen, this`tracks, this`playlistCount, this`trackCount, this`lastTrack
      ensures Reached(Controller.ReadTracks(old(Abs()), catalogFile), Abs(), fault)
    {
      if catalogFile.None? {
        screen := Screen("tracks JSON file loading failed", "", "", "");
        return Some(KeyError);
      }
      tracks := catalogFile.value;
      playlistCount := |tracks|;
      var pi := PyIndex(|tracks|, playlistNumber);
      if pi.None? {
        return Some(IndexError);
      }
      trackCount := |tracks[pi.value].tracks|;
      lastTrack := trackCount - 1;
      fault := None;
    }

    /** `lcd_show_track_information`. */
    method ShowTrackInformation() returns (fault: Option<Fault>)
      modifies this`tracks, this`track, this`trackLength, this`screen
      ensures Reached(ShowTrackInfo(old(Abs())), Abs(), fault)
    {
      ghost var s := Abs();
      var pi := PyIndex(|tracks|, playlistNumber);
      if pi.None? {
        return Some(IndexError);
      }
      var playlist := tracks[pi.value];
      var sorted := SortTracks(playlist.tracks);
      if sorted.Err? {
        return Some(sorted.error);
      }
      tracks := tracks[pi.value := playlist.(tracks := sorted.value)];
      var ti := PyIndex(|sorted.value|, trackNumber);
      if ti.None? {
        return Some(IndexError);
      }
      var t := sorted.value[ti.value];
      track := Some(t);
      trackLength := t.length.GetOr(0);
      screen := TrackScreen(t);
      fault := None;
      assert ShowTrackInfo(s) == Ok(s.(catalog := tracks, track := Some(t), trackLength := t.length.GetOr(0), screen := TrackScreen(t)));
      assert Abs() == s.(catalog := tracks, track := Some(t), trackLength := t.length.GetOr(0), screen := TrackScreen(t));
    }

    /** `lcd_show_playlist_information`. */
    method ShowPlaylistInformation() returns (fault: Option<Fault>)
      modifies this`screen
      ensures Reached(ShowPlaylistInfo(old(Abs())), Abs(), fault)
    {
      var pi := PyIndex(|tracks|, playlistNumber);
      if pi.None? {
        return Some(IndexError);
      }
      screen := PlaylistScreen(tracks[pi.value]);
      fault := None;
    }

    /** `select_track`. */
    method SelectTrack(direction: Direction) returns (fault: Option<Fault>)
      modifies this`trackNumber, this`tracks, this`track, this`trackLength, this`screen
      ensures Reached(Controller.SelectTrack(old(Abs()), direction), Abs(), fault)
    {
      ghost var s := Abs();
      var increment := if direction == Next then 1 else -1;
      trackNumber := trackNumber + increment;
      if trackNumber < 0 {
        trackNumber := lastTrack;
      } else if trackNumber > lastTrack {
        trackNumber := 0;
      }
      assert Abs() == s.(trackNumber := Wrap(s.trackNumber, s.lastTrack, direction));
      fault := ShowTrackInformation();
    }

    /** `select_playlist`. */
    method SelectPlaylist(direction: Direction) returns (fault: Option<Fault>)
      modifies this`playlistNumber, this`trackNumber, this`trackCount, this`lastTrack, this`screen
      ensures Reached(Controller.SelectPlaylist(old(Abs()), direction), Abs(), fault)
    {
      ghost var s := Abs();
      var increment := if direction == Next then 1 else -1;
      playlistNumber := playlistNumber + increment;
      trackNumber := 0;
      if playlistNumber < 0 {
        playlistNumber := playlistCount - 1;
      } else if playlistNumber > playlistCount - 1 {
        playlistNumber := 0;
      }
      assert playlistNumber == Wrap(s.playlistNumber, s.playlistCount - 1, direction);
      var pi := PyIndex(|tracks|, playlistNumber);
      if pi.None? {
        return Some(IndexError);
      }
      trackCount := |tracks[pi.value].tracks|;
      lastTrack := trackCount - 1;
      assert Abs() == s.(playlistNumber := playlistNumber, trackNumber := 0, trackCount := trackCount, lastTrack := lastTrack);
      fault := ShowPlaylistInformation();
    }

    /** `load_track`: the loading message on line 4, then the new media. */
    method LoadTrack(file: Option<string>)
      modifies this`screen, this`effects
      ensures screen == old(screen).(line4 := "Loading the MP3...")
      ensures effects == old(effects) + [LoadMedia(file)]
    {
      screen := screen.(line4 := "Loading the MP3...");
      effects := effects + [LoadMedia(file)];
    }

    /** `play_track`: redraw, then start the track shown. */
    method PlayTrack() returns (fault: Option<Fault>)
      modifies this`tracks, this`track, this`trackLength, this`screen, this`effects, this`currentTrack
      ensures Reached(Controller.PlayTrack(old(Abs())), Abs(), fault)
    {
      screen := Blank;
      fault := ShowTrackInformation();
      if fault.Some? {
        return;
      }
      StartShownTrack();
    }

    /** The rest of `play_track`: start the timer, load the file unless it is
        already loaded, then play. */
    method StartShownTrack()
      modifies this`effects, this`screen, this`currentTrack
      ensures Abs() == Controller.StartShownTrack(old(Abs()))
    {
      ghost var shown := Abs();
      effects := effects + [StartTimer];
      ghost var timed := Abs();
      if currentTrack != track {
        LoadTrack(TrackFile(track));
        assert Abs() == timed.(screen := timed.screen.(line4 := "Loading the MP3..."),
                               effects := timed.effects + [LoadMedia(TrackFile(timed.track))]);
        currentTrack := track;
        screen := screen.(line4 := "");
      }
      effects := effects + [StartPlayback];
    }

    /** `stop_track`. */
    method StopTrack() returns (fault: Option<Fault>)
      modifies this`tracks, this`track, this`trackLength, this`screen, this`playing, this`effects
      ensures Reached(Controller.StopTrack(old(Abs())), Abs(), fault)
    {
      screen := Blank;
      fault := ShowTrackInformation();
      if fault.Some? {
        return;
      }
      playing := false;
      effects := effects + [StopPlayback, StopTimer];
    }

    /** The rotary-turn branch of the `main` loop. */
    method TurnCommand(direction: Direction) returns (fault: Option<Fault>)
      modifies this`trackNumber, this`trackCount, this`lastTrack, this`playlistNumber,
        this`tracks, this`track, this`trackLength, this`screen
      ensures Reached(Turn(old(Abs()), direction), Abs(), fault)
    {
      fault := None;
      if mode == IdleMode {
        fault := SelectTrack(direction);
      } else if mode == PlaylistMode {
        fault := SelectPlaylist(direction);
      }
    }

    /** The next/prev footswitch branch of the `main` loop. */
    method FootswitchCommand(direction: Direction) returns (fault: Option<Fault>)
      modifies this`trackNumber, this`trackCount, this`lastTrack, this`playlistNumber,
        this`tracks, this`track, this`trackLength, this`screen
      ensures Reached(Footswitch(old(Abs()), direction), Abs(), fault)
    {
      fault := None;
      if mode == IdleMode {
        fault := SelectTrack(direction);
        if fault.Some? {
          return;
        }
      }
      if mode == PlaylistMode {
        fault := SelectPlaylist(direction);
      }
    }

    /** The block of the `main` loop run while nothing plays. */
    method DispatchCommand(command: Command) returns (fault: Option<Fault>)
      modifies this`mode, this`playing, this`trackNumber, this`trackCount, this`lastTrack, this`playlistNumber,
        this`trackPlaytime, this`tracks, this`track, this`trackLength, this`currentTrack, this`screen, this`effects
      ensures Reached(Dispatch(old(Abs()), command), Abs(), fault)
    {
      ghost var s := Abs();
      fault := None;
      if command == RotaryNext || command == RotaryPrev {
        var direction := if command == RotaryNext then Next else Prev;
        assert Dispatch(s, command) == Turn(s, direction);
        fault := TurnCommand(direction);
      } else if command == FootswitchRotary {
        if mode == PlaylistMode {
          mode := IdleMode;
          assert Dispatch(s, command) == ShowTrackInfo(Abs());
          fault := ShowTrackInformation();
        } else if mode == IdleMode {
          mode := PlaylistMode;
          assert Dispatch(s, command) == ShowPlaylistInfo(Abs());
          fault := ShowPlaylistInformation();
        }
      } else if command == FootswitchPrev || command == FootswitchNext {
        var direction := if command == FootswitchNext then Next else Prev;
        assert Dispatch(s, command) == Footswitch(s, direction);
        fault := FootswitchCommand(direction);
      } else if command == FootswitchPlay {
        trackPlaytime := 0;
        mode := PlayMode;
        playing := true;
        assert Dispatch(s, command) == Controller.PlayTrack(Abs());
        fault := PlayTrack();
      }
    }

    /** The body of the `while` loop in `main`, for one dequeued command. */
    method HandleCommand(command: Command) returns (fault: Option<Fault>)
      modifies this`mode, this`playing, this`trackNumber, this`trackCount, this`lastTrack, this`playlistNumber,
        this`trackPlaytime, this`tracks, this`track, this`trackLength, this`currentTrack, this`screen, this`effects
      ensures Reached(Step(old(Abs()), command), Abs(), fault)
    {
      fault := None;
      if !playing {
        fault := DispatchCommand(command);
        if fault.Some? {
          return;
        }
      }
      if playing {
        if command == FootswitchStop {
          playing := false;
          mode := IdleMode;
          fault := StopTrack();
        }
      }
    }

    /** `main`: take commands off the queue one at a time until it is empty
        (where the source blocks for more) or a command raises. */
    method RunLoop() returns (fault: Option<Fault>)
      modifies this`mode, this`playing, this`trackNumber, this`trackCount, this`lastTrack, this`playlistNumber,
        this`trackPlaytime, this`tracks, this`track, this`trackLength, this`currentTrack, this`screen, this`effects, this`commandQueue
      ensures Reached(Run(old(Abs()), old(commandQueue)), Abs(), fault)
      ensures fault.None? ==> commandQueue == []
    {
      fault := None;
      while commandQueue != [] && fault.None?
        invariant fault.None? ==> Run(old(Abs()), old(commandQueue)) == Run(Abs(), commandQueue)
        invariant fault.Some? ==> Run(old(Abs()), old(commandQueue)) == Err(fault.value)
        decreases |commandQueue|
      {
        var command := commandQueue[0];
        commandQueue := commandQueue[1..];
        fault := HandleCommand(command);
      }
    }

    /** `lcd_update_track_time`, run by the timer: record the playhead the
        player reports and write the time line. */
    method UpdateTrackTime(playheadMilliseconds: int) returns (text: string)
      modifies this`trackPlaytime, this`screen
      ensures text == TimeText(ElapsedClock(playheadMilliseconds, trackLength))
      ensures Abs() == old(Abs()).(trackPlaytime := playheadMilliseconds, screen := old(screen).(line4 := text))
    {
      trackPlaytime := playheadMilliseconds;
      var clock := ElapsedClock(trackPlaytime, trackLength);
      text := TimeText(clock);
      screen := screen.(line4 := text);
    }

    // -------------------------------------------------------------------
    // Input callbacks; each takes the "is pressed" readings it consults.

    /** `queue_rotary_dt_button`: a turn one way, unless a track plays. */
    method QueueRotaryDtButton(clkPressed: bool)
      modifies this`commandQueue
      ensures commandQueue == old(commandQueue) + (if !playing && clkPressed then [RotaryNext] else [])
    {
      if !playing && clkPressed {
        commandQueue := commandQueue + [RotaryNext];
      }
    }

    /** `queue_rotary_clk_button`: a turn the other way, unless a track plays. */
    method QueueRotaryClkButton(dtPressed: bool)
      modifies this`commandQueue
      ensures commandQueue == old(commandQueue) + (if !playing && dtPressed then [RotaryPrev] else [])
    {
      if !playing && dtPressed {
        commandQueue := commandQueue + [RotaryPrev];
      }
    }

    /** `queue_footswitch_prev`: a fresh press marks the switch held and
        queues one command. */
    method QueueFootswitchPrev(pressed: bool)
      modifies this`commandQueue, this`footswitchPrevState
      ensures footswitchPrevState == (old(footswitchPrevState) || pressed)
      ensures commandQueue == old(commandQueue) + (if pressed then [FootswitchPrev] else [])
    {
      if pressed {
        footswitchPrevState := true;
        commandQueue := commandQueue + [FootswitchPrev];
      }
    }

    /** `queue_footswitch_prev_held`: auto-repeat only while marked held. */
    method QueueFootswitchPrevHeld(pressed: bool)
      modifies this`commandQueue
      ensures commandQueue == old(commandQueue) + (if pressed && footswitchPrevState then [FootswitchPrev] else [])
    {
      if pressed && footswitchPrevState {
        commandQueue := commandQueue + [FootswitchPrev];
      }
    }

    /** `queue_footswitch_next`. */
    method QueueFootswitchNext(pressed: bool)
      modifies this`commandQueue, this`footswitchNextState
      ensures footswitchNextState == (old(footswitchNextState) || pressed)
      ensures commandQueue == old(commandQueue) + (if pressed then [FootswitchNext] else [])
    {
      if pressed {
        footswitchNextState := true;
        commandQueue := commandQueue + [FootswitchNext];
      }
    }

    /** `queue_footswitch_next_held`. */
    method QueueFootswitchNextHeld(pressed: bool)
      modifies this`commandQueue
      ensures commandQueue == old(commandQueue) + (if pressed && footswitchNextState then [FootswitchNext] else [])
    {
      if pressed && footswitchNextState {
        commandQueue := commandQueue + [FootswitchNext];
      }
    }

    /** `queue_footswitch_play`: one switch for both, chosen by `playing`. */
    method QueueFootswitchPlay(pressed: bool)
      modifies this`commandQueue
      ensures commandQueue == old(commandQueue) + (if !pressed then [] else if playing then [FootswitchStop] else [FootswitchPlay])
    {
      if pressed {
        if playing {
          commandQueue := commandQueue + [FootswitchStop];
        } else {
          commandQueue := commandQueue + [FootswitchPlay];
        }
      }
    }

    /** `footswitch_next_reset_state`. */
    method FootswitchNextResetState()
      modifies this`footswitchNextState
      ensures !footswitchNextState
    {
      footswitchNextState := false;
    }

    /** `footswitch_prev_reset_state`. */
    method FootswitchPrevResetState()
      modifies this`footswitchPrevState
      ensures !footswitchPrevState
    {
      footswitchPrevState := false;
    }

    /** `queue_rotary_button`. */
    method QueueRotaryButton(pressed: bool)
      modifies this`commandQueue
      ensures commandQueue == old(commandQueue) + (if pressed then [FootswitchRotary] else [])
    {
      if pressed {
        commandQueue := commandQueue + [FootswitchRotary];
      }
    }

    /** `initialize` after the settings: read the catalog, show the track and
        queue the "idle" token (`init_buttons_and_rotary`). */
    method Initialize(catalogFile: Option<seq<Playlist>>) returns (fault: Option<Fault>)
      modifies this`screen, this`tracks, this`playlistCount, this`trackCount, this`lastTrack,
        this`track, this`trackLength, this`commandQueue
      ensures Reached(Start(old(Abs()), catalogFile), Abs(), fault)
      ensures fault.None? ==> commandQueue == old(commandQueue) + [Other("idle")]
    {
      screen := screen.(line2 := "Reading tracks...");
      fault := ReadTracks(catalogFile);
      if fault.Some? {
        return;
      }
      fault := ShowTrackInformation();
      if fault.Some? {
        return;
      }
      commandQueue := commandQueue + [Other("idle")];
    }
  }

  /** `TrackPlayer()`: read the settings, construct, then initialise. When a
      saved position is a float, `__init__` raises before any caller can hold
      the object, so no player is returned and the fault is the one the
      source raises. */
  method NewTrackPlayer(settingsFile: Option<SettingsFile>, catalogFile: Option<seq<Playlist>>)
    returns (player: TrackPlayer?, fault: Option<Fault>)
    ensures fault.None? <==> Boot(settingsFile, catalogFile).Ok?
    ensures fault.Some? ==> Boot(settingsFile, catalogFile) == Err(fault.value)
    ensures fault.None? ==> player != null && fresh(player) && player.Abs() == Boot(settingsFile, catalogFile).value
    ensures fault.None? ==> player != null && player.commandQueue == [Other("idle")] && !player.playing
    ensures fault.None? ==>
      && player != null
      && player.volumeLeft == ReadSettings(settingsFile).volumeLeft
      && player.volumeRight == ReadSettings(settingsFile).volumeRight
      && !player.footswitchNextState && !player.footswitchPrevState
  {
    var settings := ReadSettings(settingsFile);
    if settings.playlistNumber.JReal? || settings.trackNumber.JReal? {
      return null, Some(FractionalStartFault(catalogFile, settings.playlistNumber));
    }
    player := new TrackPlayer(settings.playlistNumber.i, settings.trackNumber.i,
                              settings.volumeLeft, settings.volumeRight, settingsFile.Some?);
    fault := player.Initialize(catalogFile);
  }
}
