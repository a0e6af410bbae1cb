/** The elapsed-time text `lcd_update_track_time` writes on line 4 while a
    track plays: playhead minutes and seconds against the track's length. */
module Clock {
  import opened Text

  datatype Clock = Clock(playMinutes: int, playSeconds: int, trackMinutes: int, trackSeconds: int)

  /** Floor division is unique: a quotient and remainder in range fix it. */
  lemma DivUnique(n: int, d: int, q: int, r: int)
    requires d > 0 && n == d * q + r && 0 <= r < d
    ensures n / d == q && n % d == r
  {
    var q', r' := n / d, n % d;
    assert n == d * q' + r';
    var k := q - q';
    assert d * k == r' - r by {
      assert d * q - d * q' == d * k;
    }
    if k > 0 {
      MulAtLeast(d, k);
    } else if k < 0 {
      MulAtLeast(d, -k);
    }
  }

  lemma MulAtLeast(d: int, k: int)
    requires d > 0 && k >= 1
    ensures d * k >= d
  {
    assert d * k == d * (k - 1) + d;
  }

  /** Whole minutes of a millisecond count are whole minutes of its whole seconds. */
  lemma MinutesOfSeconds(ms: int)
    ensures ms / 60000 == (ms / 1000) / 60
  {
    var secs := ms / 1000;
    var mins := secs / 60;
    assert ms == 1000 * secs + ms % 1000;
    assert secs == 60 * mins + secs % 60;
    assert ms == 60000 * mins + (1000 * (secs % 60) + ms % 1000);
    DivUnique(ms, 60000, mins, 1000 * (secs % 60) + ms % 1000);
  }

  lemma HourSplit(secs: int)
    ensures secs % 3600 == 60 * ((secs / 60) % 60) + secs % 60
  {
    var mins := secs / 60;
    assert secs == 60 * mins + secs % 60;
    assert mins == 60 * (mins / 60) + mins % 60;
    assert secs == 3600 * (mins / 60) + (60 * (mins % 60) + secs % 60);
    DivUnique(secs, 3600, mins / 60, 60 * (mins % 60) + secs % 60);
  }

  /** The four numbers on the time line. The source divides in floating
      point, takes the remainder modulo 60 and truncates; on integer
      milliseconds that is floor division, which Dafny's `/` and `%` are for
      a positive divisor (so a playhead of -1 ms, which the player reports
      when nothing is loaded, shows as 59:59 just as in the source). The
      track length goes through `divmod(length, 60)`. */
  function ElapsedClock(ms: int, length: int): (c: Clock)
    ensures 0 <= c.playMinutes < 60 && 0 <= c.playSeconds < 60
    ensures (ms / 1000) % 3600 == 60 * c.playMinutes + c.playSeconds
    ensures length == 60 * c.trackMinutes + c.trackSeconds && 0 <= c.trackSeconds < 60
  {
    MinutesOfSeconds(ms);
    HourSplit(ms / 1000);
    Clock((ms / (1000 * 60)) % 60, (ms / 1000) % 60, length / 60, length % 60)
  }

  /** `'{:02d}:{:02d} / {:02d}:{:02d}'.format(...)`. */
  function TimeText(c: Clock): (r: string)
    ensures |r| >= 13
  {
    Pad2(c.playMinutes) + ":" + Pad2(c.playSeconds) + " / " + Pad2(c.trackMinutes) + ":" + Pad2(c.trackSeconds)
  }

  function TwoDigitValue(s: string): nat
    requires |s| == 2 && AllDigits(s)
  {
    10 * DigitValue(s[0]) + DigitValue(s[1])
  }

  /** A track shorter than 100 minutes gives a 13-character line from which
      all four numbers can be read back. */
  lemma TimeTextReadsBack(ms: int, length: int)
    requires 0 <= length < 6000
    ensures var c := ElapsedClock(ms, length);
      var t := TimeText(c);
      && |t| == 13
      && t[2] == ':' && t[5..8] == " / " && t[10] == ':'
      && AllDigits(t[0..2]) && TwoDigitValue(t[0..2]) == c.playMinutes
      && AllDigits(t[3..5]) && TwoDigitValue(t[3..5]) == c.playSeconds
      && AllDigits(t[8..10]) && TwoDigitValue(t[8..10]) == c.trackMinutes
      && AllDigits(t[11..13]) && TwoDigitValue(t[11..13]) == c.trackSeconds
      && 60 * TwoDigitValue(t[8..10]) + TwoDigitValue(t[11..13]) == length
  {
    var c := ElapsedClock(ms, length);
    var a, b, d, e := Pad2(c.playMinutes), Pad2(c.playSeconds), Pad2(c.trackMinutes), Pad2(c.trackSeconds);
    TwoDigits(c.playMinutes);
    TwoDigits(c.playSeconds);
    TwoDigits(c.trackMinutes);
    TwoDigits(c.trackSeconds);
    var t := a + ":" + b + " / " + d + ":" + e;
    assert t[0..2] == a && t[3..5] == b && t[8..10] == d && t[11..13] == e;
  }

  lemma TwoDigits(n: int)
    requires 0 <= n < 100
    ensures |Pad2(n)| == 2 && AllDigits(Pad2(n)) && TwoDigitValue(Pad2(n)) == n
  {
    var p := Pad2(n);
    assert p[..1] == [p[0]];
    assert ParseNat(p) == 10 * ParseNat(p[..1]) + DigitValue(p[1]);
    assert ParseNat(p[..1]) == DigitValue(p[0]) by {
      assert p[..1][..0] == [];
    }
  }
}
