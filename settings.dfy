/** `read_settings`: the saved playback position and volumes, each key
    falling back to its default when the file or the key is missing. */
module SettingsStore {
  import opened Results

  /** A JSON number as Python's `json` module reads it: an `int` when written
      without a fraction or exponent, a `float` otherwise. */
  datatype Num = JInt(i: int) | JReal(r: real)

  /** The JSON object of `settings.json`, with its numeric entries. */
  datatype SettingsFile = SettingsFile(entries: map<string, Num>)

  /** The four values `read_settings` stores on the player. */
  datatype Settings = Settings(playlistNumber: Num, trackNumber: Num, volumeLeft: Num, volumeRight: Num)

  /** What a missing file or an empty object yields. */
  const Defaults := Settings(JInt(0), JInt(0), JReal(0.8), JReal(0.8))

  /** `dict.get(key, default)`. */
  function Get<V>(m: map<string, V>, key: string, default: V): (v: V)
    ensures key in m ==> v == m[key]
    ensures key !in m ==> v == default
  {
    if key in m then m[key] else default
  }

  /** A file that cannot be opened leaves the settings dict empty (None). */
  function ReadSettings(file: Option<SettingsFile>): (s: Settings)
    ensures file.None? ==> s == Defaults
  {
    var entries := if file.Some? then file.value.entries else map[];
    Settings(
      Get(entries, "playlist_number", Defaults.playlistNumber),
      Get(entries, "track_number", Defaults.trackNumber),
      Get(entries, "volume_left", Defaults.volumeLeft),
      Get(entries, "volume_right", Defaults.volumeRight))
  }

  /** The object holding all four keys with the given values. */
  function FileOf(s: Settings): SettingsFile {
    SettingsFile(map[
      "playlist_number" := s.playlistNumber, "track_number" := s.trackNumber,
      "volume_left" := s.volumeLeft, "volume_right" := s.volumeRight])
  }

  /** Reading back a file that holds every key gives exactly its values,
      whatever kind of number each one is. */
  lemma ReadSettingsOfFile(s: Settings)
    ensures ReadSettings(Some(FileOf(s))) == s
  {
  }

  /** Each key is read on its own: a present key gives its value, of either
      kind, and a missing one its default, whatever the other keys hold. */
  lemma ReadSettingsPerKey(f: SettingsFile)
    ensures var s := ReadSettings(Some(f));
      && s.playlistNumber == (if "playlist_number" in f.entries then f.entries["playlist_number"] else Defaults.playlistNumber)
      && s.trackNumber == (if "track_number" in f.entries then f.entries["track_number"] else Defaults.trackNumber)
      && s.volumeLeft == (if "volume_left" in f.entries then f.entries["volume_left"] else Defaults.volumeLeft)
      && s.volumeRight == (if "volume_right" in f.entries then f.entries["volume_right"] else Defaults.volumeRight)
  {
  }
}
