/** The playlist catalog read from `tracks.json`, Python list indexing on it,
    and the `tracks.sort(key=sort_tracks)` call that orders a playlist by the
    tracks' `number` strings. */
module Catalog {
  import opened Results
  import opened Text

  /** The Python exceptions that can escape the control loop and end it. */
  datatype Fault =
    | IndexError  // a list index out of range
    | KeyError    // indexing the empty dict left behind by a missing catalog file
    | TypeError   // `sort` comparing the default key 1 with a string number

  /** One JSON track object; every key may be missing (`track.get(key, default)`). */
  datatype Track = Track(
    artist: Option<string>,
    title: Option<string>,
    number: Option<string>,
    file: Option<string>,
    length: Option<int>)

  /** One JSON playlist object; a missing `tracks` key reads as the empty list. */
  datatype Playlist = Playlist(name: Option<string>, tracks: seq<Track>)

  /** Python's `xs[i]` on a list of the given length: negative indices count
      from the end, anything else out of range raises IndexError (None). */
  function PyIndex(length: nat, i: int): (r: Option<nat>)
    ensures r.Some? <==> 0 <= length + i && i < length
    ensures r.Some? ==> length > 0 && r.value < length && r.value == i % length
  {
    if 0 <= i < length then Some(i)
    else if 0 <= length + i && i < 0 then Some(length + i)
    else None
  }

  /** The sort key, for a track that has a `number`. */
  function Key(t: Track): (k: string)
    ensures t.number.Some? ==> k == t.number.value
    ensures t.number.None? ==> k == ""
  {
    t.number.GetOr("")
  }

  predicate AllNumbered(ts: seq<Track>) {
    forall i :: 0 <= i < |ts| ==> ts[i].number.Some?
  }

  predicate NoneNumbered(ts: seq<Track>) {
    forall i :: 0 <= i < |ts| ==> ts[i].number.None?
  }

  /** `sort_tracks` gives a string for a numbered track and the int 1 for the
      others; Python can order the keys only when they are all of one kind. */
  predicate Sortable(ts: seq<Track>) {
    AllNumbered(ts) || NoneNumbered(ts)
  }

  predicate SortedByNumber(ts: seq<Track>) {
    forall i, j :: 0 <= i < j < |ts| ==> !Below(Key(ts[j]), Key(ts[i]))
  }

  /** The tracks whose key is k, in their order: what a stable sort keeps. */
  function WithKey(ts: seq<Track>, k: string): seq<Track> {
    if ts == [] then []
    else (if Key(ts[0]) == k then [ts[0]] else []) + WithKey(ts[1..], k)
  }

  /** Puts x in front of the first track that does not sort before it. */
  function Insert(x: Track, ts: seq<Track>): seq<Track> {
    if ts == [] then [x]
    else if !Below(Key(ts[0]), Key(x)) then [x] + ts
    else [ts[0]] + Insert(x, ts[1..])
  }

  function InsertionSort(ts: seq<Track>): seq<Track> {
    if ts == [] then [] else Insert(ts[0], InsertionSort(ts[1..]))
  }

  lemma {:induction false} InsertPermutes(x: Track, ts: seq<Track>)
    ensures multiset(Insert(x, ts)) == multiset(ts) + multiset{x}
  {
    if ts != [] && Below(Key(ts[0]), Key(x)) {
      InsertPermutes(x, ts[1..]);
      assert ts == [ts[0]] + ts[1..];
    }
  }

  lemma {:induction false} InsertSorted(x: Track, ts: seq<Track>)
    requires SortedByNumber(ts)
    ensures SortedByNumber(Insert(x, ts))
  {
    if ts == [] {
    } else if !Below(Key(ts[0]), Key(x)) {
      var r := [x] + ts;
      forall i, j | 0 <= i < j < |r| ensures !Below(Key(r[j]), Key(r[i])) {
        if i == 0 && j > 1 {
          NotBelowTransitive(Key(x), Key(ts[0]), Key(ts[j - 1]));
        }
      }
    } else {
      var tail := Insert(x, ts[1..]);
      InsertSorted(x, ts[1..]);
      InsertPermutes(x, ts[1..]);
      var r := [ts[0]] + tail;
      forall j | 1 <= j < |r| ensures !Below(Key(r[j]), Key(ts[0])) {
        assert r[j] in multiset(tail);
        if r[j] == x {
          BelowAsymmetric(Key(ts[0]), Key(x));
        } else {
          assert r[j] in multiset(ts[1..]);
          var k :| 0 <= k < |ts[1..]| && ts[1..][k] == r[j];
          assert ts[k + 1] == r[j];
        }
      }
    }
  }

  lemma {:induction false} InsertKeepsKeyOrder(x: Track, ts: seq<Track>, k: string)
    ensures WithKey(Insert(x, ts), k) == (if Key(x) == k then [x] else []) + WithKey(ts, k)
  {
    if ts == [] {
      assert WithKey([x], k) == (if Key(x) == k then [x] else []) + WithKey([], k);
    } else if !Below(Key(ts[0]), Key(x)) {
      assert ([x] + ts)[1..] == ts;
    } else {
      InsertKeepsKeyOrder(x, ts[1..], k);
      BelowIrreflexive(Key(x));
      assert ([ts[0]] + Insert(x, ts[1..]))[1..] == Insert(x, ts[1..]);
    }
  }

  lemma {:induction false} InsertionSortCorrect(ts: seq<Track>)
    ensures multiset(InsertionSort(ts)) == multiset(ts)
    ensures SortedByNumber(InsertionSort(ts))
  {
    if ts != [] {
      InsertionSortCorrect(ts[1..]);
      InsertPermutes(ts[0], InsertionSort(ts[1..]));
      InsertSorted(ts[0], InsertionSort(ts[1..]));
      assert ts == [ts[0]] + ts[1..];
    }
  }

  /** Stability: tracks with equal numbers keep their relative order. */
  lemma {:induction false} InsertionSortStable(ts: seq<Track>, k: string)
    ensures WithKey(InsertionSort(ts), k) == WithKey(ts, k)
  {
    if ts != [] {
      InsertionSortStable(ts[1..], k);
      InsertKeepsKeyOrder(ts[0], InsertionSort(ts[1..]), k);
    }
  }

  lemma {:induction false} InsertionSortOfSorted(ts: seq<Track>)
    requires SortedByNumber(ts)
    ensures InsertionSort(ts) == ts
  {
    if ts != [] {
      assert SortedByNumber(ts[1..]);
      InsertionSortOfSorted(ts[1..]);
      assert ts == [ts[0]] + ts[1..];
    }
  }

  /** `tracks.sort(key=sort_tracks)`: Python's stable sort by `number`, or a
      TypeError when numbered and unnumbered tracks are mixed. */
  function SortTracks(ts: seq<Track>): (r: Result<seq<Track>, Fault>)
    ensures r.Ok? <==> Sortable(ts)
    ensures r.Err? ==> r.error == TypeError
    ensures r.Ok? ==> |r.value| == |ts| && Sortable(r.value)
    ensures NoneNumbered(ts) ==> r == Ok(ts)
  {
    if AllNumbered(ts) then
      InsertionSortCorrect(ts);
      var sorted := InsertionSort(ts);
      assert |sorted| == |multiset(sorted)| == |ts|;
      assert AllNumbered(sorted) by {
        forall i | 0 <= i < |sorted| ensures sorted[i].number.Some? {
          assert sorted[i] in multiset(ts);
        }
      }
      Ok(sorted)
    else if NoneNumbered(ts) then
      Ok(ts)
    else
      Err(TypeError)
  }

  /** A successful sort is an ordering of the same tracks by `number`. */
  lemma SortTracksSorts(ts: seq<Track>)
    requires Sortable(ts)
    ensures multiset(SortTracks(ts).value) == multiset(ts)
    ensures SortedByNumber(SortTracks(ts).value)
  {
    if AllNumbered(ts) {
      InsertionSortCorrect(ts);
    }
  }

  /** A stable sort keeps the order of equally numbered tracks. */
  lemma SortTracksStable(ts: seq<Track>, k: string)
    requires SortTracks(ts).Ok?
    ensures WithKey(SortTracks(ts).value, k) == WithKey(ts, k)
  {
    if AllNumbered(ts) {
      InsertionSortStable(ts, k);
    }
  }

  /** Sorting a playlist that was already sorted leaves it as it is, so the
      in-place sort done on every display is seen only the first time. */
  lemma SortTracksIdempotent(ts: seq<Track>)
    requires SortTracks(ts).Ok?
    ensures SortTracks(SortTracks(ts).value) == SortTracks(ts)
  {
    var sorted := SortTracks(ts).value;
    SortTracksSorts(ts);
    if AllNumbered(sorted) {
      InsertionSortOfSorted(sorted);
    }
  }
}
