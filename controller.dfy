/** The mode state machine of `TrackPlayer.main` as functions on a value:
    the consumer-side player state, what one command does to it, what a
    queue of commands does, and how the state is built at start-up. A
    Python exception that escapes the loop ends the program; here it is the
    `Err` outcome. */
module Controller {
  import opened Results
  import opened Catalog
  import opened Layout
  import opened Navigator
  import opened SettingsStore

  datatype Mode = IdleMode | PlaylistMode | PlayMode | SettingsMode

  /** The tokens put on the command queue. `FootswitchRotary` is the rotary
      push button; any other string (such as the "idle" token queued at
      start-up) is `Other`. */
  datatype Command =
    | RotaryNext | RotaryPrev | FootswitchRotary
    | FootswitchNext | FootswitchPrev | FootswitchPlay | FootswitchStop
    | Other(token: string)

  /** The seven strings the main loop acts on. */
  predicate IsCommandName(token: string) {
    token in {"rotary_next", "rotary_prev", "footswitch_rotary", "footswitch_next",
              "footswitch_prev", "footswitch_play", "footswitch_stop"}
  }

  /** A command as it can come off the queue: an `Other` token is never one
      of the seven names. */
  predicate Genuine(c: Command) {
    c.Other? ==> !IsCommandName(c.token)
  }

  /** The string a command is on the queue. */
  function Name(c: Command): string {
    match c
    case RotaryNext => "rotary_next"
    case RotaryPrev => "rotary_prev"
    case FootswitchRotary => "footswitch_rotary"
    case FootswitchNext => "footswitch_next"
    case FootswitchPrev => "footswitch_prev"
    case FootswitchPlay => "footswitch_play"
    case FootswitchStop => "footswitch_stop"
    case Other(token) => token
  }

  /** How the loop's string comparisons classify a dequeued value. */
  function Parse(token: string): (c: Command)
    ensures Genuine(c) && Name(c) == token
    ensures c.Other? <==> !IsCommandName(token)
  {
    if token == "rotary_next" then RotaryNext
    else if token == "rotary_prev" then RotaryPrev
    else if token == "footswitch_rotary" then FootswitchRotary
    else if token == "footswitch_next" then FootswitchNext
    else if token == "footswitch_prev" then FootswitchPrev
    else if token == "footswitch_play" then FootswitchPlay
    else if token == "footswitch_stop" then FootswitchStop
    else Other(token)
  }

  /** Every genuine command is read back from its own string. */
  lemma ParseName(c: Command)
    requires Genuine(c)
    ensures Parse(Name(c)) == c
  {
  }

  /** Calls made on the audio transport and the elapsed-time timer, in order.
      `StartPlayback` is setting the volume to 100 and starting the player. */
  datatype Effect = StartTimer | LoadMedia(file: Option<string>) | StartPlayback | StopPlayback | StopTimer

  /** The fields of the player object that the control loop reads and writes. */
  datatype State = State(
    mode: Mode,
    playing: bool,
    playlistNumber: int,
    playlistCount: int,
    trackNumber: int,
    trackCount: int,
    lastTrack: int,
    trackPlaytime: int,
    catalog: seq<Playlist>,
    track: Option<Track>,       // the track last shown
    trackLength: int,
    currentTrack: Option<Track>,  // the track whose file is loaded
    screen: Screen,
    effects: seq<Effect>)

  /** `lcd_show_track_information`: sorts the current playlist in place,
      picks the track at `trackNumber` and shows it. */
  function ShowTrackInfo(s: State): (r: Result<State, Fault>)
    ensures r.Ok? ==> r.value.track.Some? && r.value.screen == TrackScreen(r.value.track.value)
    ensures r.Ok? ==>
      && r.value.mode == s.mode && r.value.playing == s.playing && r.value.playlistNumber == s.playlistNumber
      && r.value.playlistCount == s.playlistCount && r.value.trackNumber == s.trackNumber
      && r.value.trackCount == s.trackCount && r.value.lastTrack == s.lastTrack
      && r.value.trackPlaytime == s.trackPlaytime && r.value.currentTrack == s.currentTrack && r.value.effects == s.effects
    ensures r.Ok? ==> |r.value.catalog| == |s.catalog|
  {
    match PyIndex(|s.catalog|, s.playlistNumber)
    case None => Err(IndexError)
    case Some(pi) =>
      match SortTracks(s.catalog[pi].tracks)
      case Err(e) => Err(e)
      case Ok(sorted) =>
        match PyIndex(|sorted|, s.trackNumber)
        case None => Err(IndexError)
        case Some(ti) =>
          var t := sorted[ti];
          Ok(s.(catalog := s.catalog[pi := s.catalog[pi].(tracks := sorted)],
                track := Some(t),
                trackLength := t.length.GetOr(0),
                screen := TrackScreen(t)))
  }

  /** The playlist the redraw sorts and the position it picks in it: both
      indices resolved the Python way, with the sort of `tracks` known to
      succeed. */
  predicate Showable(s: State) {
    && PyIndex(|s.catalog|, s.playlistNumber).Some?
    && Sortable(s.catalog[PyIndex(|s.catalog|, s.playlistNumber).value].tracks)
    && PyIndex(|s.catalog[PyIndex(|s.catalog|, s.playlistNumber).value].tracks|, s.trackNumber).Some?
  }

  /** What the redraw does. It fails exactly when an index is out of range
      (IndexError) or the playlist mixes numbered and unnumbered tracks
      (TypeError). Otherwise the current playlist's tracks are replaced by
      their sort (the same tracks, ordered by number, equal numbers in their
      old order) with its name and every other playlist left as they were,
      and the shown track is the entry at `trackNumber` of the sorted list. */
  lemma ShowTrackInfoShows(s: State)
    ensures ShowTrackInfo(s).Ok? <==> Showable(s)
    ensures ShowTrackInfo(s).Err? ==>
      ShowTrackInfo(s).error ==
        (if PyIndex(|s.catalog|, s.playlistNumber).Some? && !Sortable(s.catalog[PyIndex(|s.catalog|, s.playlistNumber).value].tracks)
         then TypeError else IndexError)
    ensures ShowTrackInfo(s).Ok? ==>
      var pi := PyIndex(|s.catalog|, s.playlistNumber).value;
      var before := s.catalog[pi].tracks;
      var r := ShowTrackInfo(s).value;
      var sorted := r.catalog[pi].tracks;
      && r.catalog == s.catalog[pi := s.catalog[pi].(tracks := sorted)]
      && multiset(sorted) == multiset(before)
      && SortedByNumber(sorted)
      && (forall k :: WithKey(sorted, k) == WithKey(before, k))
      && r.track == Some(sorted[PyIndex(|sorted|, s.trackNumber).value])
      && r.trackLength == r.track.value.length.GetOr(0)
      && r.screen == TrackScreen(r.track.value)
  {
    var p := PyIndex(|s.catalog|, s.playlistNumber);
    if p.Some? && Sortable(s.catalog[p.value].tracks) {
      var ts := s.catalog[p.value].tracks;
      SortTracksSorts(ts);
      forall k {
        SortTracksStable(ts, k);
      }
    }
  }

  /** `lcd_show_playlist_information`. */
  function ShowPlaylistInfo(s: State): (r: Result<State, Fault>)
    ensures r.Ok? <==> PyIndex(|s.catalog|, s.playlistNumber).Some?
    ensures r.Err? ==> r.error == IndexError
    ensures r.Ok? ==> r.value == s.(screen := PlaylistScreen(s.catalog[PyIndex(|s.catalog|, s.playlistNumber).value]))
  {
    match PyIndex(|s.catalog|, s.playlistNumber)
    case None => Err(IndexError)
    case Some(pi) => Ok(s.(screen := PlaylistScreen(s.catalog[pi])))
  }

  /** `select_track(direction)`. */
  function SelectTrack(s: State, d: Direction): (r: Result<State, Fault>)
    ensures r.Ok? ==> r.value.trackNumber == Wrap(s.trackNumber, s.lastTrack, d)
    ensures r.Ok? ==> r.value.(catalog := s.catalog, track := s.track, trackLength := s.trackLength,
                               screen := s.screen, trackNumber := s.trackNumber) == s
    ensures r.Ok? ==> r.value.track.Some? && r.value.screen == TrackScreen(r.value.track.value)
  {
    ShowTrackInfo(s.(trackNumber := Wrap(s.trackNumber, s.lastTrack, d)))
  }

  /** `select_playlist(direction)`: move to the neighbouring playlist, go to
      its first track and recount its tracks. */
  function SelectPlaylist(s: State, d: Direction): (r: Result<State, Fault>)
    ensures r.Ok? <==> PyIndex(|s.catalog|, Wrap(s.playlistNumber, s.playlistCount - 1, d)).Some?
    ensures r.Err? ==> r.error == IndexError
    ensures r.Ok? ==>
      var pn := Wrap(s.playlistNumber, s.playlistCount - 1, d);
      && r.value.playlistNumber == pn && r.value.trackNumber == 0
      && r.value.trackCount == |s.catalog[PyIndex(|s.catalog|, pn).value].tracks|
      && r.value.lastTrack == r.value.trackCount - 1
      && r.value.screen == PlaylistScreen(s.catalog[PyIndex(|s.catalog|, pn).value])
      && r.value.mode == s.mode && r.value.playing == s.playing && r.value.playlistCount == s.playlistCount
      && r.value.trackPlaytime == s.trackPlaytime && r.value.catalog == s.catalog && r.value.track == s.track
      && r.value.trackLength == s.trackLength && r.value.currentTrack == s.currentTrack && r.value.effects == s.effects
  {
    var pn := Wrap(s.playlistNumber, s.playlistCount - 1, d);
    match PyIndex(|s.catalog|, pn)
    case None => Err(IndexError)
    case Some(pi) =>
      var count := |s.catalog[pi].tracks|;
      ShowPlaylistInfo(s.(playlistNumber := pn, trackNumber := 0, trackCount := count, lastTrack := count - 1))
  }

  /** The `file` of the shown track, as `self.track.get('file')`. */
  function TrackFile(t: Option<Track>): Option<string> {
    if t.Some? then t.value.file else None
  }

  /** `play_track`: redraw, then start the track shown. */
  function PlayTrack(s: State): (r: Result<State, Fault>)
    ensures r.Ok? ==> r.value.track.Some? && r.value.currentTrack == r.value.track
    ensures r.Ok? ==> |r.value.effects| > |s.effects| && r.value.effects[..|s.effects|] == s.effects
    ensures r.Ok? ==> r.value.effects[|s.effects|] == StartTimer && r.value.effects[|r.value.effects| - 1] == StartPlayback
    ensures r.Ok? ==> r.value.mode == s.mode && r.value.playing == s.playing
  {
    var shown :- ShowTrackInfo(s.(screen := Blank));
    Ok(StartShownTrack(shown))
  }

  /** The rest of `play_track`: start the timer, load the file unless it is
      the one already loaded (the loading message on line 4 is then
      cleared), and start playback. */
  function StartShownTrack(shown: State): (r: State)
    ensures r.currentTrack == shown.track
    ensures r.effects == shown.effects + [StartTimer]
      + (if shown.currentTrack != shown.track then [LoadMedia(TrackFile(shown.track))] else []) + [StartPlayback]
    ensures r.screen == if shown.currentTrack != shown.track then shown.screen.(line4 := "") else shown.screen
    ensures r.(currentTrack := shown.currentTrack, effects := shown.effects, screen := shown.screen) == shown
  {
    var timed := shown.(effects := shown.effects + [StartTimer]);
    var loaded :=
      if timed.currentTrack != timed.track then
        timed.(effects := timed.effects + [LoadMedia(TrackFile(timed.track))],
               currentTrack := timed.track,
               screen := timed.screen.(line4 := ""))
      else timed;
    loaded.(effects := loaded.effects + [StartPlayback])
  }

  /** `stop_track`: redraw, clear `playing`, stop the player and the timer. */
  function StopTrack(s: State): (r: Result<State, Fault>)
    ensures r.Ok? ==> !r.value.playing && r.value.effects == s.effects + [StopPlayback, StopTimer]
    ensures r.Ok? ==> r.value.track.Some? && r.value.screen == TrackScreen(r.value.track.value)
    ensures r.Ok? ==> r.value.mode == s.mode && r.value.currentTrack == s.currentTrack
  {
    var shown :- ShowTrackInfo(s.(screen := Blank));
    Ok(shown.(playing := false, effects := shown.effects + [StopPlayback, StopTimer]))
  }

  /** A rotary turn: a track in idle mode, a playlist in playlist mode. */
  function Turn(s: State, d: Direction): (r: Result<State, Fault>)
    ensures s.mode != IdleMode && s.mode != PlaylistMode ==> r == Ok(s)
    ensures r.Ok? ==> r.value.mode == s.mode && r.value.playing == s.playing && r.value.currentTrack == s.currentTrack
    ensures r.Ok? && s.mode == IdleMode ==> r.value.trackNumber == Wrap(s.trackNumber, s.lastTrack, d)
    ensures r.Ok? && s.mode == PlaylistMode ==> r.value.playlistNumber == Wrap(s.playlistNumber, s.playlistCount - 1, d)
  {
    if s.mode == IdleMode then SelectTrack(s, d)
    else if s.mode == PlaylistMode then SelectPlaylist(s, d)
    else Ok(s)
  }

  /** A next/prev footswitch: the source tests the two modes one after the
      other, which selecting a track (it keeps the mode) makes equivalent. */
  function Footswitch(s: State, d: Direction): (r: Result<State, Fault>)
    ensures s.mode != IdleMode && s.mode != PlaylistMode ==> r == Ok(s)
    ensures r.Ok? ==> r.value.mode == s.mode && r.value.playing == s.playing && r.value.currentTrack == s.currentTrack
  {
    var s1 :- if s.mode == IdleMode then SelectTrack(s, d) else Ok(s);
    if s1.mode == PlaylistMode then SelectPlaylist(s1, d) else Ok(s1)
  }

  /** The commands honoured while nothing plays. */
  function Dispatch(s: State, c: Command): (r: Result<State, Fault>)
    ensures c.Other? || c == FootswitchStop ==> r == Ok(s)
    ensures r.Ok? && c != FootswitchPlay ==> r.value.playing == s.playing && r.value.currentTrack == s.currentTrack
    ensures r.Ok? && c == FootswitchPlay ==> r.value.playing && r.value.mode == PlayMode && r.value.trackPlaytime == 0
  {
    if c == RotaryNext || c == RotaryPrev then
      Turn(s, if c == RotaryNext then Next else Prev)
    else if c == FootswitchRotary then
      if s.mode == PlaylistMode then ShowTrackInfo(s.(mode := IdleMode))
      else if s.mode == IdleMode then ShowPlaylistInfo(s.(mode := PlaylistMode))
      else Ok(s)
    else if c == FootswitchPrev then Footswitch(s, Prev)
    else if c == FootswitchNext then Footswitch(s, Next)
    else if c == FootswitchPlay then
      PlayTrack(s.(trackPlaytime := 0, mode := PlayMode, playing := true))
    else Ok(s)
  }

  /** One pass of the `while` loop in `main`. The "playing" test is made
      again after the first block, on the updated flag. */
  function Step(s: State, c: Command): (r: Result<State, Fault>)
    ensures s.playing && c != FootswitchStop ==> r == Ok(s)
    ensures r.Ok? && c == FootswitchStop ==> !r.value.playing && (s.playing ==> r.value.mode == IdleMode)
    ensures r.Ok? && c == FootswitchPlay && !s.playing ==> r.value.playing && r.value.mode == PlayMode
  {
    var s1 :- if !s.playing then Dispatch(s, c) else Ok(s);
    if s1.playing && c == FootswitchStop then
      StopTrack(s1.(playing := false, mode := IdleMode))
    else Ok(s1)
  }

  /** The loop consuming a queue of commands, stopping at the first fault. */
  function Run(s: State, commands: seq<Command>): (r: Result<State, Fault>)
    ensures r.Ok? && |commands| > 0 && commands[|commands| - 1] == FootswitchStop ==> !r.value.playing
    ensures r.Ok? && s.playing && (forall i :: 0 <= i < |commands| ==> commands[i] != FootswitchStop) ==> r == Ok(s)
    decreases |commands|
  {
    if commands == [] then Ok(s)
    else
      var s1 :- Step(s, commands[0]);
      Run(s1, commands[1..])
  }

  /** The object after `__init__` has read the settings: idle, not playing,
      positioned where the settings say, with nothing loaded yet. */
  function Initial(playlistNumber: int, trackNumber: int, settingsFound: bool): State {
    State(IdleMode, false, playlistNumber, 0, trackNumber, 0, 0, 0, [],
          None, 0, None,
          if settingsFound then Screen("Reading settings...", "", "", "")
          else Screen("settings JSON file loading failed", "", "", ""),
          [])
  }

  /** `read_tracks`: a missing catalog leaves an empty dict, which the
      playlist lookup then fails on (KeyError). */
  function ReadTracks(s: State, catalogFile: Option<seq<Playlist>>): (r: Result<State, Fault>)
    ensures catalogFile.None? ==> r == Err(KeyError)
    ensures catalogFile.Some? ==> (r.Ok? <==> PyIndex(|catalogFile.value|, s.playlistNumber).Some?)
    ensures catalogFile.Some? && r.Err? ==> r.error == IndexError
    ensures r.Ok? ==>
      && r.value.catalog == catalogFile.value && r.value.playlistCount == |catalogFile.value|
      && r.value.trackCount == |catalogFile.value[PyIndex(|catalogFile.value|, s.playlistNumber).value].tracks|
      && r.value.lastTrack == r.value.trackCount - 1
      && r.value.(catalog := s.catalog, playlistCount := s.playlistCount, trackCount := s.trackCount,
                  lastTrack := s.lastTrack) == s
  {
    match catalogFile
    case None => Err(KeyError)
    case Some(cat) =>
      match PyIndex(|cat|, s.playlistNumber)
      case None => Err(IndexError)
      case Some(pi) =>
        var count := |cat[pi].tracks|;
        Ok(s.(catalog := cat, playlistCount := |cat|, trackCount := count, lastTrack := count - 1))
  }

  /** The rest of `initialize`: read the catalog and show the track. */
  function Start(s: State, catalogFile: Option<seq<Playlist>>): (r: Result<State, Fault>)
    ensures catalogFile.None? ==> r == Err(KeyError)
    ensures r.Ok? ==> |r.value.catalog| == |catalogFile.value| > 0
    ensures r.Ok? ==> r.value.track.Some? && r.value.screen == TrackScreen(r.value.track.value)
    ensures r.Ok? ==> r.value.(catalog := s.catalog, playlistCount := s.playlistCount, trackCount := s.trackCount,
                               lastTrack := s.lastTrack, track := s.track, trackLength := s.trackLength, screen := s.screen) == s
  {
    var s1 :- ReadTracks(s.(screen := s.screen.(line2 := "Reading tracks...")), catalogFile);
    ShowTrackInfo(s1)
  }

  /** `TrackPlayer()`: read the settings, then the rest of `initialize`. A
      saved position that is a JSON float never reaches the control loop:
      start-up raises before it, see `FractionalStartFault`. */
  function Boot(settingsFile: Option<SettingsFile>, catalogFile: Option<seq<Playlist>>): (r: Result<State, Fault>)
    ensures catalogFile.None? ==> r == Err(KeyError)
    ensures r.Ok? ==>
      && ReadSettings(settingsFile).playlistNumber == JInt(r.value.playlistNumber)
      && ReadSettings(settingsFile).trackNumber == JInt(r.value.trackNumber)
    ensures r.Ok? ==> r.value.mode == IdleMode && !r.value.playing && r.value.effects == [] && r.value.currentTrack.None?
    ensures r.Ok? ==> r.value.track.Some? && r.value.screen == TrackScreen(r.value.track.value)
  {
    var st := ReadSettings(settingsFile);
    match (st.playlistNumber, st.trackNumber)
    case (JInt(pn), JInt(tn)) => Start(Initial(pn, tn, settingsFile.Some?), catalogFile)
    case _ => Err(FractionalStartFault(catalogFile, st.playlistNumber))
  }

  /** The fault start-up ends with when a saved position is a float. The
      missing catalog is an empty dict, whose lookup fails with KeyError for
      any key. Indexing the catalog list with a float playlist number is a
      TypeError. An integer playlist number can still be out of range
      (IndexError). Past that point, either the sort or indexing the playlist
      with a float track number is a TypeError. */
  function FractionalStartFault(catalogFile: Option<seq<Playlist>>, playlistNumber: Num): Fault {
    if catalogFile.None? then KeyError
    else if playlistNumber.JReal? then TypeError
    else if PyIndex(|catalogFile.value|, playlistNumber.i).None? then IndexError
    else TypeError
  }

  // ---------------------------------------------------------------------
  // The invariant the loop keeps on a well-formed catalog

  /** A catalog the loop can never fail on: at least one playlist, every
      playlist non-empty and numbered either everywhere or nowhere. */
  predicate WellFormed(cat: seq<Playlist>) {
    |cat| > 0 && forall i :: 0 <= i < |cat| ==> |cat[i].tracks| > 0 && Sortable(cat[i].tracks)
  }

  /** Both indices are valid Python indices into the catalog; the counts
      describe the current playlist; `playing` holds exactly in play mode,
      and then the shown track is the loaded one. */
  predicate Inv(s: State) {
    && WellFormed(s.catalog)
    && s.playlistCount == |s.catalog|
    && PyIndex(|s.catalog|, s.playlistNumber).Some?
    && s.trackCount == |s.catalog[PyIndex(|s.catalog|, s.playlistNumber).value].tracks|
    && s.lastTrack == s.trackCount - 1
    && PyIndex(s.trackCount, s.trackNumber).Some?
    && s.mode != SettingsMode
    && (s.playing <==> s.mode == PlayMode)
    && (s.playing ==> s.track.Some? && s.currentTrack == s.track)
  }

  /** Showing the track never fails on a valid position, keeps the catalog
      well formed and keeps every playlist's size. */
  lemma ShowTrackInfoKeeps(s: State)
    requires WellFormed(s.catalog)
    requires PyIndex(|s.catalog|, s.playlistNumber).Some?
    requires PyIndex(|s.catalog[PyIndex(|s.catalog|, s.playlistNumber).value].tracks|, s.trackNumber).Some?
    ensures ShowTrackInfo(s).Ok?
    ensures WellFormed(ShowTrackInfo(s).value.catalog)
    ensures forall i :: 0 <= i < |s.catalog| ==>
      |ShowTrackInfo(s).value.catalog[i].tracks| == |s.catalog[i].tracks|
  {
    var pi := PyIndex(|s.catalog|, s.playlistNumber).value;
    var cat := ShowTrackInfo(s).value.catalog;
    forall i | 0 <= i < |cat| ensures |cat[i].tracks| > 0 && Sortable(cat[i].tracks) && |cat[i].tracks| == |s.catalog[i].tracks| {
    }
  }

  lemma SelectTrackKeeps(s: State, d: Direction)
    requires Inv(s) && !s.playing
    ensures SelectTrack(s, d).Ok? && Inv(SelectTrack(s, d).value)
    ensures SelectTrack(s, d).value.trackNumber == Wrap(s.trackNumber, s.lastTrack, d)
  {
    ShowTrackInfoKeeps(s.(trackNumber := Wrap(s.trackNumber, s.lastTrack, d)));
  }

  lemma SelectPlaylistKeeps(s: State, d: Direction)
    requires Inv(s) && !s.playing
    ensures SelectPlaylist(s, d).Ok? && Inv(SelectPlaylist(s, d).value)
  {
  }

  lemma PlayTrackKeeps(s: State)
    requires Inv(s.(playing := false, mode := IdleMode)) && s.playing && s.mode == PlayMode
    ensures PlayTrack(s).Ok? && Inv(PlayTrack(s).value)
  {
    ShowTrackInfoKeeps(s.(screen := Blank));
  }

  lemma StopTrackKeeps(s: State)
    requires Inv(s.(playing := true, mode := PlayMode)) && !s.playing && s.mode == IdleMode
    ensures StopTrack(s).Ok? && Inv(StopTrack(s).value)
  {
    ShowTrackInfoKeeps(s.(screen := Blank));
  }

  /** On a well-formed catalog no command makes the loop fail, and every
      command keeps the invariant. */
  lemma StepKeeps(s: State, c: Command)
    requires Inv(s)
    ensures Step(s, c).Ok? && Inv(Step(s, c).value)
  {
    if !s.playing {
      DispatchKeeps(s, c);
    } else if c == FootswitchStop {
      StopTrackKeeps(s.(playing := false, mode := IdleMode));
    }
  }

  /** Every command honoured while nothing plays keeps the invariant. */
  lemma DispatchKeeps(s: State, c: Command)
    requires Inv(s) && !s.playing
    ensures Dispatch(s, c).Ok? && Inv(Dispatch(s, c).value)
  {
    if c == RotaryNext || c == RotaryPrev || c == FootswitchNext || c == FootswitchPrev {
      var d := if c == RotaryNext || c == FootswitchNext then Next else Prev;
      if s.mode == IdleMode {
        SelectTrackKeeps(s, d);
      } else if s.mode == PlaylistMode {
        SelectPlaylistKeeps(s, d);
      }
    } else if c == FootswitchRotary {
      if s.mode == PlaylistMode {
        ShowTrackInfoKeeps(s.(mode := IdleMode));
      }
    } else if c == FootswitchPlay {
      PlayTrackKeeps(s.(trackPlaytime := 0, mode := PlayMode, playing := true));
    }
  }

  lemma {:induction false} RunKeeps(s: State, commands: seq<Command>)
    requires Inv(s)
    ensures Run(s, commands).Ok? && Inv(Run(s, commands).value)
    decreases |commands|
  {
    if commands != [] {
      StepKeeps(s, commands[0]);
      RunKeeps(Step(s, commands[0]).value, commands[1..]);
    }
  }

  /** Start-up succeeds, in the invariant, when the catalog is well formed and
      the saved position is a pair of integers that are valid Python indices
      into it. */
  lemma BootKeeps(settingsFile: Option<SettingsFile>, cat: seq<Playlist>)
    requires WellFormed(cat)
    requires var st := ReadSettings(settingsFile);
      && st.playlistNumber.JInt? && st.trackNumber.JInt?
      && PyIndex(|cat|, st.playlistNumber.i).Some?
      && PyIndex(|cat[PyIndex(|cat|, st.playlistNumber.i).value].tracks|, st.trackNumber.i).Some?
    ensures Boot(settingsFile, Some(cat)).Ok? && Inv(Boot(settingsFile, Some(cat)).value)
    ensures Boot(settingsFile, Some(cat)).value.mode == IdleMode
  {
    var st := ReadSettings(settingsFile);
    var s := Initial(st.playlistNumber.i, st.trackNumber.i, settingsFile.Some?);
    var s1 := ReadTracks(s.(screen := s.screen.(line2 := "Reading tracks...")), Some(cat)).value;
    ShowTrackInfoKeeps(s1);
  }

  /** Start-up fails without a catalog file, whatever the settings, and with
      an empty catalog when the saved playlist number is an integer. */
  lemma BootFailures(settingsFile: Option<SettingsFile>)
    ensures Boot(settingsFile, None) == Err(KeyError)
    ensures ReadSettings(settingsFile).playlistNumber.JInt? ==> Boot(settingsFile, Some([])) == Err(IndexError)
  {
  }

  /** A saved position that is a float always ends start-up with a fault:
      TypeError when a catalog was read and the playlist number is the float
      (or is an integer in range), KeyError when there is no catalog. */
  lemma BootFractional(settingsFile: Option<SettingsFile>, catalogFile: Option<seq<Playlist>>)
    requires ReadSettings(settingsFile).playlistNumber.JReal? || ReadSettings(settingsFile).trackNumber.JReal?
    ensures Boot(settingsFile, catalogFile).Err?
    ensures catalogFile.None? ==> Boot(settingsFile, catalogFile) == Err(KeyError)
    ensures catalogFile.Some? && ReadSettings(settingsFile).playlistNumber.JReal? ==>
      Boot(settingsFile, catalogFile) == Err(TypeError)
    ensures var st := ReadSettings(settingsFile);
      catalogFile.Some? && st.playlistNumber.JInt? && PyIndex(|catalogFile.value|, st.playlistNumber.i).Some? ==>
      Boot(settingsFile, catalogFile) == Err(TypeError)
    ensures var st := ReadSettings(settingsFile);
      catalogFile.Some? && st.playlistNumber.JInt? && PyIndex(|catalogFile.value|, st.playlistNumber.i).None? ==>
      Boot(settingsFile, catalogFile) == Err(IndexError)
  {
  }

  /** Two settings files: an integer volume is kept as it is, and a saved
      playlist number of 1.0 stops start-up with TypeError even though a
      catalog with two playlists was read. */
  lemma SettingsExamples(p: Playlist)
    ensures ReadSettings(Some(SettingsFile(map["volume_left" := JInt(1)]))).volumeLeft == JInt(1)
    ensures Boot(Some(SettingsFile(map["playlist_number" := JReal(1.0)])), Some([p, p])) == Err(TypeError)
  {
  }

  // ---------------------------------------------------------------------
  // The transition table

  /** While a track plays only the stop footswitch does anything. */
  lemma PlayingIgnoresAllButStop(s: State, c: Command)
    requires s.playing && c != FootswitchStop && Genuine(c)
    ensures Step(s, c) == Ok(s)
  {
  }

  /** Stopping: not playing, idle, player and timer stopped, the selection
      and the loaded track kept. */
  lemma StopWhilePlaying(s: State)
    requires Inv(s) && s.playing
    ensures Step(s, FootswitchStop).Ok?
    ensures var t := Step(s, FootswitchStop).value;
      && !t.playing && t.mode == IdleMode
      && t.effects == s.effects + [StopPlayback, StopTimer]
      && t.playlistNumber == s.playlistNumber && t.trackNumber == s.trackNumber
      && t.currentTrack == s.currentTrack
      && t.screen == TrackScreen(t.track.value)
  {
    StopTrackKeeps(s.(playing := false, mode := IdleMode));
  }

  /** Stop and unknown tokens do nothing when nothing plays. */
  lemma IdleIgnores(s: State, c: Command)
    requires !s.playing && (c == FootswitchStop || c.Other?) && Genuine(c)
    ensures Step(s, c) == Ok(s)
  {
  }

  /** Outside idle and playlist mode, only the play footswitch does
      anything while nothing plays. */
  lemma OtherModesIgnore(s: State, c: Command)
    requires !s.playing && s.mode != IdleMode && s.mode != PlaylistMode && c != FootswitchPlay && Genuine(c)
    ensures Step(s, c) == Ok(s)
  {
  }

  /** The rotary button toggles between idle and playlist mode and shows
      the matching screen; in other modes it does nothing. */
  lemma RotaryPushToggles(s: State)
    requires Inv(s) && !s.playing
    ensures Step(s, FootswitchRotary).Ok?
    ensures var t := Step(s, FootswitchRotary).value;
      && (s.mode == IdleMode ==>
            t.mode == PlaylistMode
            && t.screen == PlaylistScreen(s.catalog[PyIndex(|s.catalog|, s.playlistNumber).value]))
      && (s.mode == PlaylistMode ==> t.mode == IdleMode && t.screen == TrackScreen(t.track.value))
      && t.playlistNumber == s.playlistNumber && t.trackNumber == s.trackNumber
  {
    if s.mode == PlaylistMode {
      ShowTrackInfoKeeps(s.(mode := IdleMode));
    }
  }

  lemma TurnAndFootswitchAgree(s: State, d: Direction)
    requires !s.playing
    ensures Step(s, if d == Next then RotaryNext else RotaryPrev) == Turn(s, d)
    ensures Step(s, if d == Next then FootswitchNext else FootswitchPrev) == Turn(s, d)
  {
  }

  /** In idle mode next/prev move the track, wrapping round, and keep the
      playlist. */
  lemma IdleNavigation(s: State, c: Command)
    requires Inv(s) && !s.playing && s.mode == IdleMode
    requires c in {RotaryNext, RotaryPrev, FootswitchNext, FootswitchPrev}
    ensures Step(s, c).Ok?
    ensures var d := if c == RotaryNext || c == FootswitchNext then Next else Prev;
      var t := Step(s, c).value;
      && t.mode == IdleMode
      && t.trackNumber == Wrap(s.trackNumber, s.lastTrack, d)
      && 0 <= t.trackNumber <= t.lastTrack
      && t.playlistNumber == s.playlistNumber && t.lastTrack == s.lastTrack
      && t.screen == TrackScreen(t.track.value)
  {
    var d := if c == RotaryNext || c == FootswitchNext then Next else Prev;
    SelectTrackKeeps(s, d);
    assert Step(s, c) == SelectTrack(s, d);
  }

  /** In playlist mode next/prev move the playlist, wrapping round, go to
      its first track and recount its tracks. */
  lemma PlaylistNavigation(s: State, c: Command)
    requires Inv(s) && !s.playing && s.mode == PlaylistMode
    requires c in {RotaryNext, RotaryPrev, FootswitchNext, FootswitchPrev}
    ensures Step(s, c).Ok?
    ensures var d := if c == RotaryNext || c == FootswitchNext then Next else Prev;
      var t := Step(s, c).value;
      && t.mode == PlaylistMode
      && t.playlistNumber == Wrap(s.playlistNumber, |s.catalog| - 1, d)
      && 0 <= t.playlistNumber < |t.catalog|
      && t.trackNumber == 0
      && t.trackCount == |t.catalog[t.playlistNumber].tracks|
      && t.lastTrack == t.trackCount - 1
      && t.screen == PlaylistScreen(t.catalog[t.playlistNumber])
  {
  }

  /** The play footswitch starts playback from the top of the track. */
  lemma PlayStarts(s: State)
    requires Inv(s) && !s.playing
    ensures Step(s, FootswitchPlay).Ok?
    ensures var t := Step(s, FootswitchPlay).value;
      && t.playing && t.mode == PlayMode && t.trackPlaytime == 0
      && t.playlistNumber == s.playlistNumber && t.trackNumber == s.trackNumber
      && t.currentTrack == t.track
      && t.effects == s.effects + [StartTimer]
           + (if s.currentTrack != t.track then [LoadMedia(TrackFile(t.track))] else [])
           + [StartPlayback]
  {
    PlayTrackKeeps(s.(trackPlaytime := 0, mode := PlayMode, playing := true));
  }
}
