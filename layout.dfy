/** The display formatter: the four text lines shown for the current track
    (`lcd_show_track_information`) and the two shown for the current playlist
    (`lcd_show_playlist_information`). */
module Layout {
  import opened Results
  import opened Text
  import opened Catalog

  /** Width budgets: line 1 holds the track number and up to 16 characters of
      the artist; lines 2 to 4 hold 20 characters. */
  const Line1Max := 16
  const Line2Max := 20

  /** What `lcd_update_display` leaves on the four display lines. */
  datatype Screen = Screen(line1: string, line2: string, line3: string, line4: string)

  const Blank := Screen("", "", "", "")

  /** Position j starts a match of `\s\([\W\w\d\s]*\)\Z`: a white-space
      character, an opening parenthesis, anything, and a closing parenthesis
      as the last character (which must lie beyond the opening one). */
  predicate OpensSuffix(s: string, j: nat) {
    j + 2 < |s| && IsSpace(s[j]) && s[j + 1] == '('
  }

  /** The leftmost position at or after `from` where a suffix can open. */
  function FirstOpening(s: string, from: nat): (r: Option<nat>)
    ensures r.Some? ==> from <= r.value && OpensSuffix(s, r.value)
    ensures r.Some? ==> forall j :: from <= j < r.value ==> !OpensSuffix(s, j)
    ensures r.None? ==> forall j :: from <= j ==> !OpensSuffix(s, j)
    decreases |s| - from
  {
    if from + 2 >= |s| then None
    else if OpensSuffix(s, from) then Some(from)
    else FirstOpening(s, from + 1)
  }

  /** `re.sub(r'\s\([\W\w\d\s]*\)\Z', '', s)`: removes a trailing
      " (annotation)" from the first white space followed by "(" onwards. */
  function StripSuffix(s: string): (r: string)
    ensures |r| <= |s| && r == s[..|r|]
    ensures r != s <==> |s| > 0 && s[|s| - 1] == ')' && exists j :: OpensSuffix(s, j)
    ensures r != s ==> OpensSuffix(s, |r|) && forall j :: 0 <= j < |r| ==> !OpensSuffix(s, j)
  {
    if |s| > 0 && s[|s| - 1] == ')' then
      match FirstOpening(s, 0)
      case Some(j) => s[..j]
      case None => s
    else
      s
  }

  /** Stripping is idempotent: once the annotation is gone, nothing that is
      left matches, so displaying a stripped name again changes nothing. */
  lemma StripSuffixIdempotent(s: string)
    ensures StripSuffix(StripSuffix(s)) == StripSuffix(s)
  {
    var r := StripSuffix(s);
    if r != s && StripSuffix(r) != r {
      var i: nat :| OpensSuffix(r, i);
      assert s[..|r|][i] == s[i] && s[..|r|][i + 1] == s[i + 1];
      assert OpensSuffix(s, i);
    }
  }

  lemma StripSuffixExample()
    ensures StripSuffix("Intro (Live Version)") == "Intro"
  {
    var s := "Intro (Live Version)";
    assert !OpensSuffix(s, 0) && !OpensSuffix(s, 1) && !OpensSuffix(s, 2);
    assert !OpensSuffix(s, 3) && !OpensSuffix(s, 4) && OpensSuffix(s, 5);
    assert FirstOpening(s, 0) == Some(5);
  }

  /** The four lines for a track, exactly as `lcd_show_track_information`
      lays them out from the number and the stripped artist and title. */
  function TrackLines(number: string, artist: string, title: string): (l: Screen)
    ensures |l.line1| <= |number| + 3 + Line1Max
    ensures l.line4 != "" ==> |artist| > Line2Max && |title| > Line2Max
  {
    var artistLine1 := if |artist| > Line1Max then artist[..Line1Max] else artist;
    var artistLine2 := if |artist| > Line1Max then artist[Line1Max..] else "";
    var titleLine3 := if |title| > Line2Max then title[..Line2Max] else title;
    var titleLine4 := if |title| > Line2Max then title[Line2Max..] else "";
    Screen(
      number + " - " + artistLine1,
      if |artistLine2| > 0 then artistLine2 else titleLine3,
      if |artistLine2| > 0 then titleLine3 else titleLine4,
      if |artist| > Line2Max && |title| > Line2Max then titleLine4 else "")
  }

  /** The artist is always shown whole: its first 16 characters on line 1
      and, when longer, the rest on line 2. */
  lemma ArtistShownWhole(number: string, artist: string, title: string)
    ensures var l := TrackLines(number, artist, title);
      && l.line1 == number + " - " + Take(artist, Line1Max)
      && Take(artist, Line1Max) + (if |artist| > Line1Max then l.line2 else "") == artist
  {
  }

  /** The part of the title the screen shows: lines 2 and 3 when the artist
      fits on line 1, lines 3 and 4 when it spills onto line 2. */
  function TitleShown(artist: string, l: Screen): string {
    if |artist| > Line1Max then l.line3 + l.line4 else l.line2 + l.line3
  }

  /** The whole title is shown exactly when the artist does not end up with
      17 to 20 characters while the title is longer than 20. */
  lemma TitleShownWhole(number: string, artist: string, title: string)
    ensures TitleShown(artist, TrackLines(number, artist, title)) == title
      <==> !(Line1Max < |artist| <= Line2Max && |title| > Line2Max)
  {
    var l := TrackLines(number, artist, title);
    if Line1Max < |artist| <= Line2Max && |title| > Line2Max {
      assert |TitleShown(artist, l)| == Line2Max;
    } else if |title| > Line2Max {
      assert title == title[..Line2Max] + title[Line2Max..];
    }
  }

  /** Where the title breaks: its first 20 characters go on the line after
      the artist (line 2, or line 3 when the artist spills onto line 2), and
      the rest on the line after that; a short artist always shows the rest
      on line 3, an artist of 17 to 20 characters never shows it, and a
      longer one on line 4. */
  lemma TitleLines(number: string, artist: string, title: string)
    ensures var l := TrackLines(number, artist, title);
      && (if |artist| > Line1Max then l.line3 else l.line2) == Take(title, Line2Max)
      && (|artist| <= Line1Max ==> l.line3 == Drop(title, Line2Max))
      && (|artist| <= Line2Max ==> l.line4 == "")
      && (|artist| > Line2Max ==> l.line4 == Drop(title, Line2Max))
  {
  }

  /** A short artist leaves line 4 blank and line 2 within budget. */
  lemma ShortArtistLines(number: string, artist: string, title: string)
    requires |artist| <= Line1Max
    ensures var l := TrackLines(number, artist, title);
      && l.line4 == ""
      && |l.line2| <= Line2Max
      && (|title| <= Line2Max ==> l.line3 == "")
  {
  }

  /** An artist longer than line 1 continues on line 2, pushing a short
      title down to line 3. */
  lemma LongArtistLines(number: string, head: string, tail: string, title: string)
    requires |head| == Line1Max && |tail| > 0 && |title| <= Line2Max
    ensures TrackLines(number, head + tail, title) == Screen(number + " - " + head, tail, title, "")
  {
    assert (head + tail)[..Line1Max] == head;
    assert (head + tail)[Line1Max..] == tail;
  }

  /** The lines for a track record, with `track.get` defaults applied and the
      annotation stripped from artist and title. */
  function TrackScreen(t: Track): Screen {
    TrackLines(
      t.number.GetOr("000"),
      StripSuffix(t.artist.GetOr("No artist")),
      StripSuffix(t.title.GetOr("No title")))
  }

  /** The artist a track screen shows is the stripped artist, or "No
      artist", whole: its first 16 characters on line 1, the rest on line 2. */
  lemma TrackScreenArtist(t: Track)
    ensures var artist := StripSuffix(t.artist.GetOr("No artist"));
      var s := TrackScreen(t);
      && s.line1 == t.number.GetOr("000") + " - " + Take(artist, Line1Max)
      && (|artist| > Line1Max ==> s.line2 == Drop(artist, Line1Max))
  {
    ArtistShownWhole(t.number.GetOr("000"), StripSuffix(t.artist.GetOr("No artist")), StripSuffix(t.title.GetOr("No title")));
  }

  /** The title a track screen shows is the stripped title, or "No title",
      broken after 20 characters as `TitleLines` states. */
  lemma TrackScreenTitle(t: Track)
    ensures var artist := StripSuffix(t.artist.GetOr("No artist"));
      var title := StripSuffix(t.title.GetOr("No title"));
      var s := TrackScreen(t);
      && (if |artist| > Line1Max then s.line3 else s.line2) == Take(title, Line2Max)
      && (|artist| <= Line1Max ==> s.line3 == Drop(title, Line2Max))
      && (|artist| <= Line2Max ==> s.line4 == "")
      && (|artist| > Line2Max ==> s.line4 == Drop(title, Line2Max))
  {
    TitleLines(t.number.GetOr("000"), StripSuffix(t.artist.GetOr("No artist")), StripSuffix(t.title.GetOr("No title")));
  }

  const NamePrefix := "Name: "
  const TracksPrefix := "Tracks: "

  /** The two lines for a playlist: its name and its number of tracks. */
  function PlaylistScreen(p: Playlist): (s: Screen)
    ensures s.line3 == "" && s.line4 == ""
    ensures |s.line1| >= |NamePrefix| && s.line1[..|NamePrefix|] == NamePrefix
    ensures s.line1[|NamePrefix|..] == p.name.GetOr("No name")
    ensures |s.line2| > |TracksPrefix| && s.line2[..|TracksPrefix|] == TracksPrefix
    ensures AllDigits(s.line2[|TracksPrefix|..]) && ParseNat(s.line2[|TracksPrefix|..]) == |p.tracks|
  {
    ParseNatToString(|p.tracks|);
    var count := NatToString(|p.tracks|);
    assert (TracksPrefix + count)[|TracksPrefix|..] == count;
    Screen(NamePrefix + p.name.GetOr("No name"), TracksPrefix + count, "", "")
  }
}
