/**
 * The album page (frontend/src/pages/album/AlbumPage.tsx): the duration
 * format, the two play handlers, and the flags each row and the big play
 * button are drawn from.
 *
 * The handlers only choose a player store action; the store itself is not
 * part of this model, so a handler is a function to the action it calls.
 */
module AlbumPage {
  import opened Optional
  import opened JsString
  import opened JsNumber

  // ---------------------------------------------------------------- durations

  /**
   * `formatDuration` on a whole number of seconds: `M:SS` with M the decimal
   * of seconds div 60 and SS two digits worth seconds mod 60, so in 00..59.
   */
  function FormatDuration(seconds: nat): (r: string)
    ensures var m := NatToDecimal(seconds / 60);
      && |m| + 3 == |r| && r[..|m|] == m && r[|m|] == ':'
      && var ss := r[|m| + 1..];
      && AllDigits(ss) && DecimalValue(ss) == seconds % 60 && DecimalValue(ss) < 60
  {
    var minutes := seconds / 60;
    var remainingSeconds := seconds % 60;
    var m := NatToDecimal(minutes);
    var f := PadStart(NatToDecimal(remainingSeconds), 2, '0');
    SecondsField(remainingSeconds);
    var r := MinutesField(minutes, remainingSeconds);
    assert r == m + [':'] + f;
    assert r[..|m|] == m && r[|m|] == ':' && r[|m| + 1..] == f;
    r
  }

  /** The template `${minutes}:${remainingSeconds.toString().padStart(2, "0")}`. */
  function MinutesField(minutes: nat, remainingSeconds: nat): string {
    NatToDecimal(minutes) + ":" + PadStart(NatToDecimal(remainingSeconds), 2, '0')
  }

  /**
   * The reading of an `M:SS` text: a canonical minute numeral, a colon and
   * exactly two second digits below 60. Anything else is `None`.
   */
  function ParseDuration(text: string): Option<nat> {
    var minutes := BeforeFirst(text, ':');
    if |minutes| == |text| then None else ReadParts(minutes, text[|minutes| + 1..])
  }

  /** The value of a minute numeral and a seconds field, when both are well formed. */
  function ReadParts(minutes: string, secs: string): Option<nat> {
    if AllDigits(minutes) && Canonical(minutes) && |secs| == 2 && AllDigits(secs) && DecimalValue(secs) < 60
    then Some(DecimalValue(minutes) * 60 + DecimalValue(secs))
    else None
  }

  /** A two-digit numeral is worth ten times its first digit plus its second. */
  lemma TwoDigitValue(s: string)
    requires |s| == 2 && AllDigits(s)
    ensures DecimalValue(s) == DigitValue(s[0]) * 10 + DigitValue(s[1])
  {
    var p := s[..1];
    assert p == [s[0]] && p[..0] == [];
    assert DecimalValue(p) == DecimalValue(p[..0]) * 10 + DigitValue(p[0]);
    assert DecimalValue(s) == DecimalValue(p) * 10 + DigitValue(s[1]);
  }

  /** Two two-digit numerals with the same value are the same text. */
  lemma TwoDigitUnique(s: string, t: string)
    requires |s| == 2 && AllDigits(s) && |t| == 2 && AllDigits(t)
    requires DecimalValue(s) == DecimalValue(t)
    ensures s == t
  {
    TwoDigitValue(s);
    TwoDigitValue(t);
    assert DigitValue(s[0]) == DigitValue(t[0]) && DigitValue(s[1]) == DigitValue(t[1]);
  }

  /** The padded seconds of a value below 60 are exactly two digits worth that value. */
  lemma SecondsField(v: nat)
    requires v < 60
    ensures var f := PadStart(NatToDecimal(v), 2, '0');
      |f| == 2 && AllDigits(f) && DecimalValue(f) == v
  {
    var d := NatToDecimal(v);
    var f := PadStart(d, 2, '0');
    if v < 10 {
      assert d == [DigitChar(v)];
      assert f == ['0', DigitChar(v)];
      TwoDigitValue(f);
    } else {
      assert d == NatToDecimal(v / 10) + [DigitChar(v % 10)];
      assert |d| == 2;
    }
  }

  /** Whole minutes and remaining seconds determine the seconds and are determined by them. */
  lemma MinutesAndSeconds(q: nat, r: nat)
    requires r < 60
    ensures (q * 60 + r) / 60 == q && (q * 60 + r) % 60 == r
  {
  }

  /** A numeral holds no colon. */
  lemma NoColonInDigits(m: string)
    requires AllDigits(m)
    ensures ':' !in m
  {
    forall i | 0 <= i < |m| ensures m[i] != ':' {
      assert IsAsciiDigit(m[i]);
    }
  }

  /** `m + ":" + f` splits at its first colon into `m` and `f` when `m` holds no colon. */
  lemma SplitAtColon(m: string, f: string)
    requires ':' !in m
    ensures var t := m + ":" + f;
      BeforeFirst(t, ':') == m && |m| < |t| && t[|m| + 1..] == f
  {
    BeforeFirstOfJoin(m, ':', f);
    var t := m + ":" + f;
    assert t[|m| + 1..] == f;
  }

  /** The reading of `m + ":" + f` for a canonical numeral `m` and a two-digit field `f` below 60. */
  lemma ParseOfJoin(m: string, f: string)
    requires AllDigits(m) && Canonical(m)
    requires |f| == 2 && AllDigits(f) && DecimalValue(f) < 60
    ensures ParseDuration(m + ":" + f) == Some(DecimalValue(m) * 60 + DecimalValue(f))
  {
    NoColonInDigits(m);
    SplitAtColon(m, f);
    ReadSplit(m + ":" + f, m, f);
    ReadWellFormed(m, f);
  }

  /** Well-formed fields read as minutes times 60 plus seconds. */
  lemma ReadWellFormed(m: string, f: string)
    requires AllDigits(m) && Canonical(m)
    requires |f| == 2 && AllDigits(f) && DecimalValue(f) < 60
    ensures ReadParts(m, f) == Some(DecimalValue(m) * 60 + DecimalValue(f))
  {
  }

  /** A text whose minutes end at the first colon reads as its two fields. */
  lemma ReadSplit(t: string, m: string, f: string)
    requires BeforeFirst(t, ':') == m && |m| < |t| && t[|m| + 1..] == f
    ensures ParseDuration(t) == ReadParts(m, f)
  {
  }

  /** Reading a formatted duration back gives the seconds it was made from: M * 60 + SS == s. */
  lemma FormatThenParse(seconds: nat)
    ensures ParseDuration(FormatDuration(seconds)) == Some(seconds)
  {
    var q, r := seconds / 60, seconds % 60;
    var m := NatToDecimal(q);
    var f := PadStart(NatToDecimal(r), 2, '0');
    assert FormatDuration(seconds) == m + ":" + f;
    assert ParseDuration(m + ":" + f) == Some(q * 60 + r) by {
      SecondsField(r);
      ParseOfJoin(m, f);
    }
  }

  /** The template writes back the numeral and the field a value was read from. */
  lemma MinutesFieldOf(m: string, f: string)
    requires AllDigits(m) && Canonical(m)
    requires |f| == 2 && AllDigits(f) && DecimalValue(f) < 60
    ensures MinutesField(DecimalValue(m), DecimalValue(f)) == m + ":" + f
  {
    var ds := DecimalValue(f);
    NatToDecimalOfValue(m);
    SecondsField(ds);
    TwoDigitUnique(PadStart(NatToDecimal(ds), 2, '0'), f);
  }

  /** `formatDuration` of `q * 60 + r` writes `q` minutes and `r` seconds when `r` is below 60. */
  lemma FormatOfSplit(q: nat, r: nat, t: string)
    requires r < 60
    requires MinutesField(q, r) == t
    ensures FormatDuration(q * 60 + r) == t
  {
    MinutesAndSeconds(q, r);
  }

  /** An accepted text is a numeral, a colon and a two-digit field, and its value is read from those two parts. */
  lemma ParseParts(text: string)
    requires ParseDuration(text).Some?
    ensures var minutes := BeforeFirst(text, ':');
      && |minutes| < |text|
      && var secs := text[|minutes| + 1..];
      && text == minutes + ":" + secs
      && AllDigits(minutes) && Canonical(minutes) && |secs| == 2 && AllDigits(secs) && DecimalValue(secs) < 60
      && ParseDuration(text).value == DecimalValue(minutes) * 60 + DecimalValue(secs)
  {
    var minutes := BeforeFirst(text, ':');
    assert text == text[..|minutes|] + [text[|minutes|]] + text[|minutes| + 1..];
  }

  /** `formatDuration` writes back the numeral `m` and the two-digit field `f` that `q` minutes and `r` seconds were read from. */
  lemma FormatOfParts(m: string, f: string, q: nat, r: nat, n: nat)
    requires AllDigits(m) && Canonical(m)
    requires |f| == 2 && AllDigits(f) && DecimalValue(f) < 60
    requires q == DecimalValue(m) && r == DecimalValue(f) && n == q * 60 + r
    ensures FormatDuration(n) == m + ":" + f
  {
    MinutesFieldOf(m, f);
    FormatOfSplit(q, r, m + ":" + f);
  }

  /** Every text the reading accepts is exactly what `formatDuration` writes for its value. */
  lemma ParseThenFormat(text: string)
    requires ParseDuration(text).Some?
    ensures FormatDuration(ParseDuration(text).value) == text
  {
    ParseParts(text);
    var minutes := BeforeFirst(text, ':');
    var secs := text[|minutes| + 1..];
    var q, r := DecimalValue(minutes), DecimalValue(secs);
    FormatOfParts(minutes, secs, q, r, ParseDuration(text).value);
  }

  // ---------------------------------------------------------------- playing

  /** The song fields the page's logic reads; the rest are only displayed. */
  datatype Track = Track(id: string, duration: nat, createdAt: string)

  datatype AlbumDetails = AlbumDetails(songs: seq<Track>)

  /** The player store action a handler calls. */
  datatype PlayerAction = NoAction | TogglePlay | PlayAlbum(songs: seq<Track>, startIndex: int)

  /** `songs.some((song) => song._id === currentSong?._id)`: false when there is no current song. */
  function ContainsSong(songs: seq<Track>, current: Option<Track>): (r: bool)
    ensures r <==> current.Some? && exists i :: 0 <= i < |songs| && songs[i].id == current.value.id
  {
    if songs == [] then false
    else
      var rest := ContainsSong(songs[1..], current);
      assert rest <==> current.Some? && exists i :: 1 <= i < |songs| && songs[i].id == current.value.id by {
        if current.Some? {
          assert forall i :: 1 <= i < |songs| ==> songs[i] == songs[1..][i - 1];
        }
      }
      (current.Some? && songs[0].id == current.value.id) || rest
  }

  predicate IsCurrentSong(song: Track, current: Option<Track>) {
    current.Some? && current.value.id == song.id
  }

  /** `handlePlayAlbum`: nothing without an album, a toggle when it holds the current song, else play it from the top. */
  function HandlePlayAlbum(album: Option<AlbumDetails>, current: Option<Track>): (r: PlayerAction)
    ensures r == NoAction <==> album.None?
    ensures r == TogglePlay <==>
      && album.Some? && current.Some?
      && exists i :: 0 <= i < |album.value.songs| && album.value.songs[i].id == current.value.id
    ensures album.Some? && r != TogglePlay ==> r == PlayAlbum(album.value.songs, 0)
  {
    match album
    case None => NoAction
    case Some(a) => if ContainsSong(a.songs, current) then TogglePlay else PlayAlbum(a.songs, 0)
  }

  /** `handlePlaySong(index)`: nothing without an album, else play the album's own songs from the clicked row. */
  function HandlePlaySong(album: Option<AlbumDetails>, index: int): (r: PlayerAction)
    ensures r == NoAction <==> album.None?
    ensures r.PlayAlbum? ==> r.songs == album.value.songs && r.startIndex == index
    ensures r == NoAction || r.PlayAlbum?
  {
    match album
    case None => NoAction
    case Some(a) => PlayAlbum(a.songs, index)
  }

  /** The big button shows the pause icon rather than the play icon: playing one of the album's songs. */
  predicate ShowPauseIcon(isPlaying: bool, album: Option<AlbumDetails>, current: Option<Track>)
    ensures ShowPauseIcon(isPlaying, album, current) <==>
      && isPlaying && album.Some? && current.Some?
      && exists i :: 0 <= i < |album.value.songs| && album.value.songs[i].id == current.value.id
  {
    isPlaying && album.Some? && ContainsSong(album.value.songs, current)
  }

  /** What a row shows in its first column. */
  datatype TrackMarker = Equaliser | TrackNumber(n: nat)

  /** A row shows the equaliser exactly when its song is current and playing, and its number `index + 1` otherwise. */
  function Marker(song: Track, index: nat, current: Option<Track>, isPlaying: bool): (r: TrackMarker)
    ensures r == Equaliser <==> isPlaying && current.Some? && current.value.id == song.id
    ensures r.TrackNumber? ==> r.n == index + 1 && r.n >= 1
  {
    if IsCurrentSong(song, current) && isPlaying then Equaliser else TrackNumber(index + 1)
  }

  /** On the desktop table a row reveals a play icon on hover unless it is the current song. */
  predicate ShowHoverPlay(song: Track, current: Option<Track>) {
    !IsCurrentSong(song, current)
  }

  /**
   * The "Released Date" column, `createdAt.split("T")[0]`: the prefix of
   * `createdAt` up to the first `T`, or all of it when there is none.
   */
  function ReleaseDate(createdAt: string): (r: string)
    ensures |r| <= |createdAt| && r == createdAt[..|r|] && 'T' !in r
    ensures |r| < |createdAt| ==> createdAt[|r|] == 'T'
  {
    BeforeFirst(createdAt, 'T')
  }

  /** The pause icon shows exactly when the player is playing and the big button would pause it. */
  lemma PauseIconIff(isPlaying: bool, album: Option<AlbumDetails>, current: Option<Track>)
    ensures ShowPauseIcon(isPlaying, album, current) <==> isPlaying && HandlePlayAlbum(album, current) == TogglePlay
  {
  }

  /**
   * The rows and the big button agree: some row of the album shows the
   * equaliser exactly when the button shows the pause icon, and a row with
   * the equaliser never offers the hover play icon.
   */
  lemma EqualiserIffPauseIcon(songs: seq<Track>, current: Option<Track>, isPlaying: bool)
    ensures (exists i :: 0 <= i < |songs| && Marker(songs[i], i, current, isPlaying) == Equaliser)
      <==> ShowPauseIcon(isPlaying, Some(AlbumDetails(songs)), current)
    ensures forall i :: 0 <= i < |songs| && Marker(songs[i], i, current, isPlaying) == Equaliser ==>
              !ShowHoverPlay(songs[i], current)
  {
    if ShowPauseIcon(isPlaying, Some(AlbumDetails(songs)), current) {
      var i :| 0 <= i < |songs| && songs[i].id == current.value.id;
      assert Marker(songs[i], i, current, isPlaying) == Equaliser;
    }
  }

  /** For a timestamp `date + "T" + time` the column shows `date`. */
  lemma ReleaseDateOfTimestamp(date: string, time: string)
    requires 'T' !in date
    ensures ReleaseDate(date + "T" + time) == date
  {
    BeforeFirstOfJoin(date, 'T', time);
  }
}
