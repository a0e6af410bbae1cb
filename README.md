# Backing-track player controller in Dafny

This project models the controller of a footswitch- and rotary-driven
backing-track player (`trackplayer.py`). The player keeps a catalog of
playlists read from `tracks.json` and a saved position read from
`settings.json`. Button edges put command strings on a queue. A `main`
loop takes the commands off one by one and, depending on the mode (idle,
playlist, play, settings) and on whether a track is playing, moves through
tracks and playlists, starts and stops playback and redraws a four-line
character display.

The model has two layers:

- **Pure.** `Controller` holds the player state as a value. `Step` says what
  one command does to it, `Run` what a queue of commands does, and `Boot`
  what start-up does. A Python exception that escapes the loop (an
  `IndexError` from a list index, the `KeyError` left by a missing catalog,
  the `TypeError` of a sort that mixes numbered and unnumbered tracks) is the
  `Err` outcome of these functions. `Layout`, `Clock`, `Catalog`, `Navigator`
  and `SettingsStore` hold what those functions use:
  - the display lines and the removal of a trailing " (annotation)";
  - the elapsed-time line;
  - Python list indexing and the stable sort by track number;
  - the wrap-around index arithmetic;
  - the settings defaults.
- **Imperative.** `Player.TrackPlayer` is a class with the object's fields.
  Its methods do what the source methods do, step by step. Each consumer-side
  method is proved to leave its fields as the matching `Controller` function
  leaves the state: `Reached(F(old(Abs())), Abs(), fault)`. `LoadTrack`,
  `UpdateTrackTime` and the input callbacks state their field updates
  directly. The `main` loop runs over a
  `commandQueue` field, and its loop invariant ties it to `Run`. The input
  callbacks append to that queue.

Display output is the `screen` field: the four strings last handed to the
display. An empty string stands for a blank line, whether the source
writes `''` or clears the line with 20 spaces (`lcd_clear_line`). The audio transport and the elapsed-time timer are recorded as a
sequence of `Effect`s (start timer, load a file, start playback, stop
playback, stop timer). Reading the two JSON files is replaced by parameters:
the parsed catalog, and the parsed settings object. Either is `None` when
its file cannot be opened.

The main results are these:

- **Start-up.** On a well-formed catalog with a valid saved position,
  start-up succeeds (`BootKeeps`).
- **The invariant.** Every command keeps the invariant `Inv` and never
  raises (`StepKeeps`, `RunKeeps`). Under `Inv`, both indices are valid, the
  counts describe the current playlist, and `playing` holds exactly in play
  mode.
- **The transition table.** It is stated command by command:
  - while playing, only stop does anything;
  - the rotary push toggles idle and playlist mode;
  - next/prev select a track in idle mode and a playlist in playlist mode;
  - play starts from the top;
  - stop and unknown tokens are ignored.
- **Index arithmetic.** The arithmetic stays in range and wraps at both
  ends. One step back undoes one step forward. A full round of presses
  returns to the start.
- **The track screen.** It places the number, the artist and the title in
  the slices the source uses, and shows the artist whole. It shows the title
  whole exactly when the artist does not have 17 to 20 characters while the
  title has more than 20. That condition follows from line 4 being tested
  against `len(artist) > 20` and is reproduced as written.
- **Sorting.** The result is ordered by number, is a permutation of the
  input and is stable. Sorting is idempotent, and it fails exactly when
  numbered and unnumbered tracks are mixed.
- **Suffix removal.** It cuts at the leftmost white space followed by "(",
  and only when the string ends in ")". It is idempotent.
- **The elapsed-time line.** Its minutes and seconds lie in 0..59. The track
  length splits into minutes and seconds. For tracks under 100 minutes, the
  line is 13 characters long and all four numbers read back from it.

## Model

| member | source | states |
|---|---|---|
| Text.Take | trackplayer.py:215-226 | `s[:n]`: length is min(len, n) and the result is a prefix of s |
| Text.Drop | trackplayer.py:215-226 | `s[n:]`: `s[:n] + s[n:] == s`, empty when s is no longer than n |
| Text.IsSpace | trackplayer.py:211 | the `\s` class of a `str` pattern holds of space, tab, newline and carriage return and never of `(`, `)` or a digit |
| Text.Below | trackplayer.py:205 | Python's string `<`: a prefix of a string is below it exactly when it is a proper prefix; the order laws are the `Below...` lemmas |
| Text.BelowIrreflexive | trackplayer.py:205 | Python's string `<` used by the sort is irreflexive |
| Text.BelowTransitive | trackplayer.py:205 | string `<` is transitive |
| Text.BelowTotal | trackplayer.py:205 | any two strings are equal or ordered one way |
| Text.BelowAsymmetric | trackplayer.py:205 | string `<` is asymmetric |
| Text.NotBelowTransitive | trackplayer.py:205 | "not after" is transitive, the order a sort needs |
| Text.NatToString | trackplayer.py:238 | `'%s' % n` of a count is all digits, with no leading zero unless n is 0 |
| Text.ParseNatToString | trackplayer.py:238 | the decimal text of a count reads back as that count |
| Text.Pad2 | trackplayer.py:265 | `'{:02d}'` is at least two wide, exactly two for 0..99, reads back as n, and puts a `-` before the digits for negatives |
| Catalog.PyIndex | trackplayer.py:204-206 | list indexing succeeds iff `-len <= i < len`, giving `i mod len` (negative indices count from the end); otherwise IndexError |
| Catalog.Key | trackplayer.py:200-201 | the sort key is the track's `number`; all unnumbered tracks share one key, standing for the constant 1, which in a sortable playlist only meets other 1s |
| Catalog.InsertPermutes | trackplayer.py:205 | inserting adds exactly one track to the multiset |
| Catalog.InsertSorted | trackplayer.py:205 | inserting into a sorted playlist keeps it sorted by number |
| Catalog.InsertKeepsKeyOrder | trackplayer.py:205 | insertion puts a track before the others with its number |
| Catalog.InsertionSortCorrect | trackplayer.py:205 | the sort yields a permutation sorted by number |
| Catalog.InsertionSortStable | trackplayer.py:205 | tracks with the same number keep their relative order |
| Catalog.InsertionSortOfSorted | trackplayer.py:205 | an already sorted playlist is left as it is |
| Catalog.SortTracks | trackplayer.py:200-201 | the sort with key `number` (default 1) succeeds iff every track or no track has a number, else TypeError; it keeps the length; with no numbers the order is unchanged |
| Catalog.SortTracksSorts | trackplayer.py:205 | a successful sort is a permutation ordered by number |
| Catalog.SortTracksStable | trackplayer.py:205 | the sort is stable |
| Catalog.SortTracksIdempotent | trackplayer.py:205 | re-sorting on the next redraw changes nothing |
| Layout.FirstOpening | trackplayer.py:211-212 | finds the leftmost white space followed by `(` with at least one character after it, or reports there is none |
| Layout.StripSuffix | trackplayer.py:211-212 | the result is a prefix; it differs from the input iff the input ends in `)` and has an opening (`OpensSuffix`: a white space, then `(`, then at least one character); the cut is at the leftmost opening |
| Layout.StripSuffixIdempotent | trackplayer.py:211-212 | stripping twice equals stripping once |
| Layout.StripSuffixExample | trackplayer.py:211 | "Intro (Live Version)" becomes "Intro" |
| Layout.TrackLines | trackplayer.py:213-231 | line 1 holds at most the number, " - " and 16 characters; line 4 is used only when artist and title are both longer than 20; `ArtistShownWhole`, `TitleLines`, `TitleShownWhole`, `ShortArtistLines` and `LongArtistLines` state where artist and title go |
| Layout.ArtistShownWhole | trackplayer.py:215-230 | line 1 and, for a long artist, line 2 together hold the whole artist |
| Layout.TitleLines | trackplayer.py:221-231 | the title breaks after 20 characters: `title[:20]` on the line after the artist (line 2, or line 3 for an artist over 16 characters), `title[20:]` on line 3 for a short artist, on line 4 for an artist over 20 characters, and nowhere in between |
| Layout.TitleShownWhole | trackplayer.py:221-231 | the title is shown whole iff not (17 <= len(artist) <= 20 and len(title) > 20) |
| Layout.ShortArtistLines | trackplayer.py:215-231 | an artist of at most 16 characters leaves line 4 empty and line 2 within 20 characters |
| Layout.LongArtistLines | trackplayer.py:215-231 | a 16-character head plus a tail shows head on line 1, tail on line 2, a short title on line 3 |
| Layout.TrackScreenArtist | trackplayer.py:207-216 | the track screen applies the defaults "000" and "No artist" and strips the annotation: line 1 is the number and the first 16 characters of the stripped artist, line 2 the rest of it when it is longer |
| Layout.TrackScreenTitle | trackplayer.py:207-231 | the track screen lays out the title stripped of its annotation, or "No title", broken after 20 characters as `TitleLines` states |
| Layout.PlaylistScreen | trackplayer.py:235-239 | line 1 is "Name: " + name (default "No name"); line 2 is "Tracks: " + digits reading back as the track count |
| Clock.ElapsedClock | trackplayer.py:258-264 | playhead minutes and seconds lie in 0..59 and make up the whole seconds modulo one hour; length == 60*minutes + seconds with seconds in 0..59 |
| Clock.TwoDigits | trackplayer.py:265 | `'{:02d}'` of 0..99 is two digits reading back as the number |
| Clock.TimeText | trackplayer.py:265 | the time line is at least 13 characters long; `TimeTextReadsBack` gives its exact shape under 100 minutes |
| Clock.TimeTextReadsBack | trackplayer.py:265 | for a length under 100 minutes the line is `MM:SS / MM:SS`, 13 characters, every field reading back |
| SettingsStore.Get | trackplayer.py:195-198 | `dict.get`: the stored value when the key is present, else the default |
| SettingsStore.ReadSettings | trackplayer.py:188-198 | an unreadable file gives the defaults: the integers 0, 0 for the position and the floats 0.8, 0.8 for the volumes |
| SettingsStore.ReadSettingsOfFile | trackplayer.py:195-198 | a file holding all four keys is read back exactly, whatever kind of number each value is |
| SettingsStore.ReadSettingsPerKey | trackplayer.py:195-198 | each key is its stored number, integer or float as written, or its own default, independently of the other keys |
| Navigator.Wrap | trackplayer.py:300-306 | for last >= 0 the index stays in [0, last]; below 0 gives last, above last gives 0, otherwise it moves by exactly ±1 |
| Navigator.WrapModulo | trackplayer.py:300-306 | inside the range a step is addition modulo last + 1 |
| Navigator.WrapInverse | trackplayer.py:300-306 | prev undoes next and next undoes prev |
| Navigator.StepsCompose | trackplayer.py:300-306 | a + b steps are a steps then b steps |
| Navigator.StepsInside | trackplayer.py:300-306 | while no end is reached, k steps move by exactly k |
| Navigator.FullCycle | trackplayer.py:300-306 | last + 1 presses in one direction return to the start |
| Controller.Parse | trackplayer.py:325-364 | the loop's string tests: each of the seven command names gives its command, any other string an `Other` token that is none of them; the command's name is the string |
| Controller.ParseName | trackplayer.py:325-364 | every command that can come off the queue is read back from its string |
| Controller.ShowTrackInfo | trackplayer.py:203-232 | on success the shown track is set and the screen is its track screen; only the catalog, track, length and screen change; the number of playlists is kept |
| Controller.ShowTrackInfoShows | trackplayer.py:203-210 | the redraw fails iff an index is out of range (IndexError) or the playlist mixes numbered and unnumbered tracks (TypeError); otherwise the current playlist becomes its stable sort by number (the same tracks), its name and the other playlists stay as they were, the shown track is the sorted entry at `track_number` (Python indexing), its length is stored and its screen shown |
| Controller.ShowPlaylistInfo | trackplayer.py:235-239 | fails with IndexError exactly when the playlist number is out of range; otherwise only the screen changes, to the playlist screen |
| Controller.SelectTrack | trackplayer.py:300-307 | on success the track number is the wrapped index, only the catalog order and the shown track change besides, and the new track is on screen |
| Controller.SelectPlaylist | trackplayer.py:309-319 | fails with IndexError iff the wrapped playlist number is out of range; otherwise the playlist number wraps, the track number is 0, track count and last track describe the new playlist, its screen is shown, and every other field (mode, `playing`, playlist count, play time, catalog, shown and loaded track, track length, effects) is kept |
| Controller.PlayTrack | trackplayer.py:274-290 | on success a track is shown and loaded, earlier effects are kept, the timer is started first and playback last, and mode and `playing` are kept |
| Controller.StartShownTrack | trackplayer.py:279-287 | the shown track becomes the loaded one; the effects are the timer start, a load only when the shown track differs from the loaded one (which also clears line 4), then playback; nothing else changes |
| Controller.StopTrack | trackplayer.py:292-298 | on success nothing plays, playback and then the timer are stopped, the track is redrawn, and the mode and the loaded track are kept |
| Controller.Turn | trackplayer.py:329-335 | outside idle and playlist mode nothing changes; mode, `playing` and the loaded track are kept; idle mode wraps the track number, playlist mode the playlist number |
| Controller.Footswitch | trackplayer.py:344-355 | outside idle and playlist mode nothing changes; mode, `playing` and the loaded track are kept (`TurnAndFootswitchAgree` shows it is `Turn`) |
| Controller.Dispatch | trackplayer.py:327-361 | stop and unknown tokens change nothing; only play changes `playing`, entering play mode with the play time at 0; every other command keeps the loaded track |
| Controller.Step | trackplayer.py:325-367 | while playing every command but stop changes nothing; a stop that succeeds leaves nothing playing (in idle mode when something was playing); play from rest starts playing in play mode |
| Controller.Run | trackplayer.py:321-367 | a queue that ends with stop ends with nothing playing; while playing, a queue without stop changes nothing |
| Controller.ReadTracks | trackplayer.py:177-186 | no catalog gives KeyError, an out-of-range playlist number IndexError; otherwise the catalog, its playlist count and the current playlist's track count and last track are stored and nothing else changes |
| Controller.Start | trackplayer.py:112-114 | no catalog gives KeyError; on success the catalog is non-empty and keeps its size, a track is shown, and only the catalog, the counts, the shown track, its length and the screen change |
| Controller.Boot | trackplayer.py:44-116 | no catalog gives KeyError; on success the position is the saved integer one, the player is idle with nothing playing, loaded or started, and a track is shown |
| Controller.ShowTrackInfoKeeps | trackplayer.py:203-210 | with valid indices into a well-formed catalog the redraw does not raise and keeps every playlist's size and sortability |
| Controller.SelectTrackKeeps | trackplayer.py:300-307 | selecting a track keeps the invariant and sets the track number to the wrapped index |
| Controller.SelectPlaylistKeeps | trackplayer.py:309-319 | selecting a playlist keeps the invariant |
| Controller.PlayTrackKeeps | trackplayer.py:274-290 | starting playback keeps the invariant (the shown track becomes the loaded one) |
| Controller.StopTrackKeeps | trackplayer.py:292-298 | stopping keeps the invariant |
| Controller.StepKeeps | trackplayer.py:325-367 | on a state in the invariant no command raises and every command keeps the invariant |
| Controller.DispatchKeeps | trackplayer.py:327-361 | on a state in the invariant with nothing playing, no command raises and every command keeps the invariant |
| Controller.RunKeeps | trackplayer.py:321-367 | any queue of commands runs without a fault and ends in the invariant |
| Controller.BootKeeps | trackplayer.py:106-115 | with a well-formed catalog and a saved position of two integers that index it, start-up succeeds in idle mode within the invariant |
| Controller.BootFailures | trackplayer.py:177-186 | no catalog file ends start-up with KeyError; an empty catalog with IndexError when the saved playlist number is an integer |
| Controller.BootFractional | trackplayer.py:177-206 | a float saved position always ends start-up with a fault: KeyError without a catalog, IndexError for an integer playlist number out of range, otherwise TypeError (a float list index, the sort or a float track index) |
| Controller.SettingsExamples | trackplayer.py:188-198 | `{"volume_left": 1}` keeps the integer 1; `{"playlist_number": 1.0}` with two playlists ends start-up with TypeError |
| Controller.PlayingIgnoresAllButStop | trackplayer.py:327-367 | while playing, every command that can come off the queue except stop leaves the whole state unchanged |
| Controller.StopWhilePlaying | trackplayer.py:362-367 | stop clears playing, returns to idle, stops the player and the timer, and keeps the selection and the loaded track |
| Controller.IdleIgnores | trackplayer.py:327-361 | when not playing, stop and any token that is not a command name (such as "idle") change nothing |
| Controller.OtherModesIgnore | trackplayer.py:327-361 | when not playing outside idle and playlist mode, every command that can come off the queue except play changes nothing |
| Controller.RotaryPushToggles | trackplayer.py:336-343 | the rotary push goes idle to playlist (showing the playlist) and playlist to idle (showing the track), keeping both indices |
| Controller.TurnAndFootswitchAgree | trackplayer.py:328-355 | the next/prev footswitches do what the rotary turn does |
| Controller.IdleNavigation | trackplayer.py:329-355 | in idle mode next/prev move the track number by one, wrapping, keep the playlist and show the new track |
| Controller.PlaylistNavigation | trackplayer.py:309-355 | in playlist mode next/prev move the playlist by one, wrapping, set the track number to 0, recount the tracks, set the last track and show the playlist |
| Controller.PlayStarts | trackplayer.py:357-361 | play sets the play time to 0, play mode and playing; it starts the timer, loads the file only when another track was loaded, and starts playback |
| Player.TrackPlayer.constructor | trackplayer.py:44-111 | the fields after `read_settings` has found an integer position: idle, not playing, the position and the volumes (integer or float) from the settings, the matching message on the display |
| Player.TrackPlayer.ReadTracks | trackplayer.py:177-186 | the fields as `Controller.ReadTracks` leaves the state, or its fault |
| Player.TrackPlayer.ShowTrackInformation | trackplayer.py:203-232 | sorts the current playlist in place and shows the selected track, as `Controller.ShowTrackInfo` |
| Player.TrackPlayer.ShowPlaylistInformation | trackplayer.py:235-239 | the playlist screen, as `Controller.ShowPlaylistInfo` |
| Player.TrackPlayer.SelectTrack | trackplayer.py:300-307 | as `Controller.SelectTrack` |
| Player.TrackPlayer.SelectPlaylist | trackplayer.py:309-319 | as `Controller.SelectPlaylist` |
| Player.TrackPlayer.LoadTrack | trackplayer.py:269-272 | writes the loading message on line 4 and records the media load |
| Player.TrackPlayer.PlayTrack | trackplayer.py:274-290 | as `Controller.PlayTrack` |
| Player.TrackPlayer.StartShownTrack | trackplayer.py:279-287 | as `Controller.StartShownTrack` |
| Player.TrackPlayer.StopTrack | trackplayer.py:292-298 | as `Controller.StopTrack` |
| Player.TrackPlayer.TurnCommand | trackplayer.py:329-335 | as `Controller.Turn` |
| Player.TrackPlayer.FootswitchCommand | trackplayer.py:344-355 | as `Controller.Footswitch` |
| Player.TrackPlayer.DispatchCommand | trackplayer.py:327-361 | as `Controller.Dispatch` |
| Player.TrackPlayer.HandleCommand | trackplayer.py:325-367 | one loop pass, as `Controller.Step` |
| Player.TrackPlayer.RunLoop | trackplayer.py:321-367 | the loop ends as `Controller.Run` on the queued commands; without a fault the queue is empty |
| Player.TrackPlayer.UpdateTrackTime | trackplayer.py:257-267 | records the playhead and writes `TimeText(ElapsedClock(ms, length))` on line 4, nothing else changing |
| Player.TrackPlayer.QueueRotaryDtButton | trackplayer.py:119-121 | queues rotary_next only when not playing and the other pin reads pressed |
| Player.TrackPlayer.QueueRotaryClkButton | trackplayer.py:123-125 | queues rotary_prev only when not playing and the other pin reads pressed |
| Player.TrackPlayer.QueueFootswitchPrev | trackplayer.py:127-130 | a press marks prev held and queues one footswitch_prev |
| Player.TrackPlayer.QueueFootswitchPrevHeld | trackplayer.py:132-134 | the repeat queues footswitch_prev only while prev is held |
| Player.TrackPlayer.QueueFootswitchNext | trackplayer.py:136-139 | a press marks next held and queues one footswitch_next |
| Player.TrackPlayer.QueueFootswitchNextHeld | trackplayer.py:141-143 | the repeat queues footswitch_next only while next is held |
| Player.TrackPlayer.QueueFootswitchPlay | trackplayer.py:145-150 | a press queues footswitch_stop while playing, else footswitch_play |
| Player.TrackPlayer.FootswitchNextResetState | trackplayer.py:152-154 | clears the next-held flag |
| Player.TrackPlayer.FootswitchPrevResetState | trackplayer.py:156-158 | clears the prev-held flag |
| Player.TrackPlayer.QueueRotaryButton | trackplayer.py:160-162 | a press queues footswitch_rotary |
| Player.TrackPlayer.Initialize | trackplayer.py:112-115 | as `Controller.Start`; on success it queues the "idle" token |
| Player.NewTrackPlayer | trackplayer.py:44-116 | no player and the fault `Controller.Boot` gives when start-up raises, a float saved position included; otherwise a fresh player whose fields are what `Boot` gives, with the volumes `read_settings` found (0.8 when missing), both held flags false, only "idle" queued and nothing playing |

## Left out

- The repeating timer class and its threads (trackplayer.py:14-37) are left out. Starting and stopping the timer is recorded as an effect. Each timer tick is a call to `UpdateTrackTime` with the playhead the player reports.
- The blocking command queue and the threads that fill it are left out. `RunLoop` runs over the commands already queued and stops when the queue is empty, where the source would block.
- The hardware and library calls are left out:
  - the buttons;
  - the display driver (clearing, the start-up splash that is cleared before anything else is shown, the driver's own 20-column clipping);
  - VLC and the ALSA mixer.
  The display is the four strings last sent to it; the transport is the recorded effects.
- The exception handler of `play_track` (trackplayer.py:288-290) is left out. It catches failures inside VLC and the timer, which are not modelled. The `if self.media` test (trackplayer.py:285) is taken as true, since a medium has been loaded whenever a track is current.
- Opening and parsing the two JSON files is left out. They arrive parsed, or as `None` when they cannot be opened.
- JSON values of unexpected types are left out: track fields other than strings (and an integer length), a catalog that is an object rather than a list, and settings values that are not numbers (strings, booleans, lists, objects).
- The exception text shown on line 2 after a failed catalog load is left out. That screen is replaced at once by the fault.
- `UpdateTrackTime` uses integer milliseconds and an integer track length, so floating-point rounding is left out.
- The `print` calls are left out.
- The unreachable settings-mode redraw at trackplayer.py:323-324 is left out: nothing ever enters settings mode. `run_program` is left out because it is never cleared, and the unused rotary value fields are left out.
- `CustomIcons` is left out.
- `create_json.py` is not part of this model.
- The held-repeat and reset callbacks are modelled, although the source never registers them with a button (trackplayer.py:164-171).
- A saved position that is a JSON float makes `__init__` raise before any caller holds the object, so `NewTrackPlayer` then returns no player; the object's fields in between are not modelled.
- `current_track` starts as the integer 0, which never equals a track. It is modelled as `None`.
- Player.TrackPlayer.ShowTrackInformation: after a fault the fields are not stated, because the exception ends the program. The same holds for every other player method that returns a fault.
