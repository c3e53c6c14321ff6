/**
 * The admin catalog controller (backend/src/controller/admin.controller.js):
 * request validation for creating songs and albums, the Cloudinary
 * `public_id` built from an upload's file name, and the song and album
 * collections that `createSong`, `deleteSong`, `createAlbum` and
 * `deleteAlbum` change.
 *
 * The document database is replaced by two in-memory maps and a counter that
 * hands out fresh object ids; the media CDN is an abstract upload function
 * that either yields a URL or fails.
 */
module Catalog {
  import opened Optional
  import opened JsString
  import opened JsNumber

  type SongId = nat
  type AlbumId = nat
  type Url = string

  /** A file received by the upload middleware. */
  datatype UploadedFile = UploadedFile(name: Option<string>, tempFilePath: string)

  /** `req.files`: the uploaded files by form field. */
  datatype Files = Files(audioFile: Option<UploadedFile>, imageFile: Option<UploadedFile>)

  /**
   * A `POST /songs` request. Text fields are the strings of the multipart
   * body, `None` where absent. `albumId` is the album reference once it has
   * been read as an object id, `None` where it is absent or empty.
   */
  datatype SongRequest = SongRequest(
    files: Option<Files>,
    title: Option<string>,
    artist: Option<string>,
    albumId: Option<AlbumId>,
    duration: Option<string>)

  /** A `POST /albums` request. */
  datatype AlbumRequest = AlbumRequest(
    files: Option<Files>,
    title: Option<string>,
    artist: Option<string>,
    releaseYear: Option<string>)

  datatype Song = Song(
    title: string,
    artist: string,
    audioUrl: Url,
    imageUrl: Url,
    duration: string,
    albumId: Option<AlbumId>)

  datatype Album = Album(
    title: string,
    artist: string,
    imageUrl: Url,
    releaseYear: string,
    songs: seq<SongId>)

  /** Why a handler passed an error to `next`. */
  datatype Failure =
    | UploadFailed(file: UploadedFile)
    | SongNotFound(id: SongId)

  datatype Body =
    | Message(text: string)
    | SongCreated(id: SongId, song: Song)
    | AlbumCreated(id: AlbumId, album: Album)
    | AdminStatus(admin: bool)

  /** What a handler does with the request: answer with a JSON body, or call `next(error)`. */
  datatype Reply = Json(status: nat, body: Body) | NextError(failure: Failure)

  const MissingSongFiles := "Please upload all files"
  const MissingAlbumImage := "Please upload an image file"
  const SongTitleRequired := "Song title is required"
  const AlbumTitleRequired := "Album title is required"
  const ArtistRequired := "Artist name is required"
  const DurationRequired := "Valid duration is required"
  const ReleaseYearRequired := "Valid release year is required"
  const SongDeleted := "Song deleted successfully"
  const AlbumDeleted := "Album deleted successfully"

  // ---------------------------------------------------------------------
  // Field validation

  /** A JavaScript string value is truthy when it is present and not empty. */
  predicate Truthy(field: Option<string>) {
    field.Some? && field.value != ""
  }

  /** The negation of `!field || !field.trim()`. */
  predicate Present(field: Option<string>) {
    field.Some? && Trim(field.value) != ""
  }

  /** The negation of `!duration || isNaN(duration) || Number(duration) <= 0`. */
  predicate ValidDuration(duration: Option<string>) {
    Truthy(duration) && !IsNaN(duration.value) && GreaterThan(StringToNumber(duration.value), 0.0)
  }

  /**
   * The negation of `!releaseYear || isNaN(releaseYear) || Number(releaseYear) < 1900
   * || Number(releaseYear) > currentYear`.
   */
  predicate ValidReleaseYear(releaseYear: Option<string>, currentYear: int) {
    && Truthy(releaseYear)
    && !IsNaN(releaseYear.value)
    && !LessThan(StringToNumber(releaseYear.value), 1900 as real)
    && !GreaterThan(StringToNumber(releaseYear.value), currentYear as real)
  }

  predicate HasSongFiles(files: Option<Files>) {
    files.Some? && files.value.audioFile.Some? && files.value.imageFile.Some?
  }

  predicate HasAlbumImage(files: Option<Files>) {
    files.Some? && files.value.imageFile.Some?
  }

  /** The message of the first check of `createSong` that fails, or `None` when all pass. */
  function SongRequestError(req: SongRequest): (r: Option<string>)
    ensures r == None <==> HasSongFiles(req.files) && Present(req.title) && Present(req.artist) && ValidDuration(req.duration)
    ensures r.Some? ==> r.value in {MissingSongFiles, SongTitleRequired, ArtistRequired, DurationRequired}
  {
    if !HasSongFiles(req.files) then Some(MissingSongFiles)
    else if !Present(req.title) then Some(SongTitleRequired)
    else if !Present(req.artist) then Some(ArtistRequired)
    else if !ValidDuration(req.duration) then Some(DurationRequired)
    else None
  }

  /** The message of the first check of `createAlbum` that fails, or `None` when all pass. */
  function AlbumRequestError(req: AlbumRequest, currentYear: int): (r: Option<string>)
    ensures r == None <==> && HasAlbumImage(req.files) && Present(req.title) && Present(req.artist)
                           && ValidReleaseYear(req.releaseYear, currentYear)
    ensures r.Some? ==> r.value in {MissingAlbumImage, AlbumTitleRequired, ArtistRequired, ReleaseYearRequired}
  {
    if !HasAlbumImage(req.files) then Some(MissingAlbumImage)
    else if !Present(req.title) then Some(AlbumTitleRequired)
    else if !Present(req.artist) then Some(ArtistRequired)
    else if !ValidReleaseYear(req.releaseYear, currentYear) then Some(ReleaseYearRequired)
    else None
  }

  /** The checks of `createSong` run files, title, artist, duration; the first failure decides the message. */
  lemma SongChecksInOrder(req: SongRequest)
    ensures !HasSongFiles(req.files) ==> SongRequestError(req) == Some(MissingSongFiles)
    ensures HasSongFiles(req.files) && !Present(req.title) ==> SongRequestError(req) == Some(SongTitleRequired)
    ensures HasSongFiles(req.files) && Present(req.title) && !Present(req.artist)
      ==> SongRequestError(req) == Some(ArtistRequired)
    ensures HasSongFiles(req.files) && Present(req.title) && Present(req.artist) && !ValidDuration(req.duration)
      ==> SongRequestError(req) == Some(DurationRequired)
  {
  }

  /** The checks of `createAlbum` run image, title, artist, release year; the first failure decides the message. */
  lemma AlbumChecksInOrder(req: AlbumRequest, currentYear: int)
    ensures !HasAlbumImage(req.files) ==> AlbumRequestError(req, currentYear) == Some(MissingAlbumImage)
    ensures HasAlbumImage(req.files) && !Present(req.title) ==> AlbumRequestError(req, currentYear) == Some(AlbumTitleRequired)
    ensures HasAlbumImage(req.files) && Present(req.title) && !Present(req.artist)
      ==> AlbumRequestError(req, currentYear) == Some(ArtistRequired)
    ensures HasAlbumImage(req.files) && Present(req.title) && Present(req.artist)
      && !ValidReleaseYear(req.releaseYear, currentYear)
      ==> AlbumRequestError(req, currentYear) == Some(ReleaseYearRequired)
  {
  }

  /** A title or artist passes exactly when it is present and holds a non-whitespace character. */
  lemma PresentIffNotBlank(field: Option<string>)
    ensures Present(field) <==> field.Some? && !IsBlank(field.value)
  {
    if field.Some? {
      TrimEmptyIffBlank(field.value);
    }
  }

  /** A blank duration is not valid: `Number` of a blank string is 0. */
  lemma BlankDurationRejected(duration: string)
    requires IsBlank(duration)
    ensures !ValidDuration(Some(duration))
  {
    TrimEmptyIffBlank(duration);
  }

  /** A duration written as a whole number of seconds is valid exactly when it is positive. */
  lemma DurationOfNumeral(seconds: nat)
    ensures ValidDuration(Some(NatToDecimal(seconds))) <==> seconds > 0
  {
    NumberOfDecimal(seconds);
  }

  /** A year written as a whole number is accepted exactly when 1900 <= year <= current year. */
  lemma ReleaseYearOfNumeral(year: nat, currentYear: int)
    ensures ValidReleaseYear(Some(NatToDecimal(year)), currentYear) <==> 1900 <= year <= currentYear
  {
    NumberOfDecimal(year);
  }

  // ---------------------------------------------------------------------
  // The Cloudinary public_id

  predicate IsPublicIdChar(c: char) {
    IsAsciiAlphanumeric(c) || c == '_'
  }

  /** `name.replace(/[^a-zA-Z0-9]/g, '_')`. */
  function SanitiseName(name: string): (r: string)
    ensures |r| == |name|
    ensures forall i :: 0 <= i < |name| ==> r[i] == if IsAsciiAlphanumeric(name[i]) then name[i] else '_'
  {
    if name == [] then []
    else [if IsAsciiAlphanumeric(name[0]) then name[0] else '_'] + SanitiseName(name[1..])
  }

  /** The sanitised name consists of ASCII letters, digits and `_` only. */
  lemma SanitisedCharset(name: string)
    ensures forall i :: 0 <= i < |SanitiseName(name)| ==> IsPublicIdChar(SanitiseName(name)[i])
  {
  }

  /** Sanitising a sanitised name changes nothing. */
  lemma SanitiseIdempotent(name: string)
    ensures SanitiseName(SanitiseName(name)) == SanitiseName(name)
  {
  }

  /**
   * The `public_id` of an upload: `${Date.now()}_${file.name?.replace(…)}`, where a
   * missing name interpolates as `undefined`. The clock reading is a parameter.
   */
  function PublicId(now: nat, file: UploadedFile): (r: string)
    ensures forall i :: 0 <= i < |r| ==> IsPublicIdChar(r[i])
    ensures BeforeFirst(r, '_') == NatToDecimal(now)
    ensures var stamp := NatToDecimal(now);
      && |stamp| < |r| && r[|stamp|] == '_'
      && r[|stamp| + 1..] == match file.name
        case Some(n) => SanitiseName(n)
        case None => "undefined"
  {
    var stamp := NatToDecimal(now);
    var suffix := match file.name
      case Some(n) => SanitiseName(n)
      case None => "undefined";
    assert '_' !in stamp;
    BeforeFirstOfJoin(stamp, '_', suffix);
    var r := stamp + "_" + suffix;
    assert r[|stamp| + 1..] == suffix;
    r
  }

  // ---------------------------------------------------------------------
  // The song and album collections

  predicate Distinct(s: seq<SongId>) {
    forall i, j :: 0 <= i < j < |s| ==> s[i] != s[j]
  }

  /**
   * The cross-reference between the collections: every id in an album's
   * `songs` names an existing song whose `albumId` is that album, and no
   * album lists a song twice.
   */
  ghost predicate Linked(songs: map<SongId, Song>, albums: map<AlbumId, Album>) {
    && (forall a, s :: a in albums && s in albums[a].songs ==> s in songs && songs[s].albumId == Some(a))
    && (forall a :: a in albums ==> Distinct(albums[a].songs))
  }

  /** `Album.findByIdAndUpdate(a, { $push: { songs: s } })`; a missing album is left alone. */
  function PushSong(albums: map<AlbumId, Album>, a: AlbumId, s: SongId): (r: map<AlbumId, Album>)
    ensures r.Keys == albums.Keys
    ensures forall b :: b in albums && b != a ==> r[b] == albums[b]
    ensures a in albums ==> r[a] == albums[a].(songs := albums[a].songs + [s])
  {
    if a in albums then albums[a := albums[a].(songs := albums[a].songs + [s])] else albums
  }

  /** `$pull`: the list without any occurrence of `x`. */
  function RemoveAll(s: seq<SongId>, x: SongId): (r: seq<SongId>)
    ensures |r| <= |s|
    ensures forall y :: y in r <==> y in s && y != x
    ensures multiset(r) == multiset(s)[x := 0]
    ensures x !in s ==> r == s
  {
    if s == [] then []
    else
      var r := (if s[0] == x then [] else [s[0]]) + RemoveAll(s[1..], x);
      assert s == [s[0]] + s[1..];
      r
  }

  /** `$pull` works element by element: the kept ids stay in their original order. */
  lemma {:induction false} RemoveAllAppend(p: seq<SongId>, q: seq<SongId>, x: SongId)
    ensures RemoveAll(p + q, x) == RemoveAll(p, x) + RemoveAll(q, x)
  {
    if p != [] {
      assert (p + q)[1..] == p[1..] + q;
      RemoveAllAppend(p[1..], q, x);
    } else {
      assert p + q == q;
    }
  }

  /** Removing ids from a list without repetitions leaves a list without repetitions. */
  lemma {:induction false} RemoveAllDistinct(s: seq<SongId>, x: SongId)
    requires Distinct(s)
    ensures Distinct(RemoveAll(s, x))
  {
    if s != [] {
      var t := RemoveAll(s[1..], x);
      assert Distinct(s[1..]);
      RemoveAllDistinct(s[1..], x);
      assert s[0] !in s[1..];
      if s[0] != x {
        var r := [s[0]] + t;
        forall i, j | 0 <= i < j < |r| ensures r[i] != r[j] {
          if i == 0 {
            assert r[j] == t[j - 1];
          } else {
            assert r[i] == t[i - 1] && r[j] == t[j - 1];
          }
        }
      }
    }
  }

  /** `Album.findByIdAndUpdate(a, { $pull: { songs: s } })`; a missing album is left alone. */
  function PullSong(albums: map<AlbumId, Album>, a: AlbumId, s: SongId): (r: map<AlbumId, Album>)
    ensures r.Keys == albums.Keys
    ensures forall b :: b in albums && b != a ==> r[b] == albums[b]
    ensures a in albums ==> r[a] == albums[a].(songs := RemoveAll(albums[a].songs, s)) && s !in r[a].songs
  {
    if a in albums then albums[a := albums[a].(songs := RemoveAll(albums[a].songs, s))] else albums
  }

  /** `Song.deleteMany({ albumId: a })`: the songs whose `albumId` is not `a`. */
  function DropAlbumSongs(songs: map<SongId, Song>, a: AlbumId): (r: map<SongId, Song>)
    ensures forall s :: s in r <==> s in songs && songs[s].albumId != Some(a)
    ensures forall s :: s in r ==> r[s] == songs[s]
  {
    map s | s in songs && songs[s].albumId != Some(a) :: songs[s]
  }

  /** Saving a song under a fresh id, and pushing it onto its album if it names one, keeps the collections linked. */
  lemma LinkedAfterCreateSong(songs: map<SongId, Song>, albums: map<AlbumId, Album>, id: SongId, song: Song)
    requires Linked(songs, albums)
    requires id !in songs
    ensures Linked(songs[id := song], if song.albumId.Some? then PushSong(albums, song.albumId.value, id) else albums)
  {
    var songs' := songs[id := song];
    var albums' := if song.albumId.Some? then PushSong(albums, song.albumId.value, id) else albums;
    forall a | a in albums'
      ensures Distinct(albums'[a].songs)
    {
      if song.albumId == Some(a) {
        var l := albums[a].songs;
        assert id !in l;
        assert albums'[a].songs == l + [id];
        forall i, j | 0 <= i < j < |l + [id]| ensures (l + [id])[i] != (l + [id])[j] {
          if j == |l| {
            assert (l + [id])[i] == l[i];
          }
        }
      }
    }
  }

  /** Pulling a song from its album and deleting it keeps the collections linked; no album lists it any more. */
  lemma LinkedAfterDeleteSong(songs: map<SongId, Song>, albums: map<AlbumId, Album>, id: SongId)
    requires Linked(songs, albums)
    requires id in songs
    ensures var albums' := if songs[id].albumId.Some? then PullSong(albums, songs[id].albumId.value, id) else albums;
      && Linked(songs - {id}, albums')
      && (forall a :: a in albums' ==> id !in albums'[a].songs)
  {
    var albums' := if songs[id].albumId.Some? then PullSong(albums, songs[id].albumId.value, id) else albums;
    if songs[id].albumId.Some? {
      PullKeepsAlbums(albums, songs[id].albumId.value, id);
    }
    assert forall a, s :: a in albums' && s in albums'[a].songs ==> s in albums[a].songs;
    forall a | a in albums'
      ensures id !in albums'[a].songs
    {
      if songs[id].albumId != Some(a) {
        assert albums'[a] == albums[a];
      }
    }
  }

  /** Pulling `x` from album `a` keeps every list distinct, removes `x` from `a`, and invents no id. */
  lemma PullKeepsAlbums(albums: map<AlbumId, Album>, a: AlbumId, x: SongId)
    requires forall b :: b in albums ==> Distinct(albums[b].songs)
    ensures var r := PullSong(albums, a, x);
      && r.Keys == albums.Keys
      && (forall b :: b in r ==> Distinct(r[b].songs))
      && (forall b, s :: b in r && s in r[b].songs ==> s in albums[b].songs)
      && (a in r ==> x !in r[a].songs)
      && (forall b :: b in r && b != a ==> r[b] == albums[b])
  {
    if a in albums {
      RemoveAllDistinct(albums[a].songs, x);
    }
  }

  /** Deleting an album together with every song that names it keeps the collections linked. */
  lemma LinkedAfterDeleteAlbum(songs: map<SongId, Song>, albums: map<AlbumId, Album>, a: AlbumId)
    requires Linked(songs, albums)
    ensures Linked(DropAlbumSongs(songs, a), albums - {a})
  {
  }

  /** Adding an album with no songs under a fresh id keeps the collections linked. */
  lemma LinkedAfterCreateAlbum(songs: map<SongId, Song>, albums: map<AlbumId, Album>, id: AlbumId, album: Album)
    requires Linked(songs, albums)
    requires id !in albums && album.songs == []
    ensures Linked(songs, albums[id := album])
  {
  }

  /** The song `createSong` saves: the submitted strings, untrimmed, and the two URLs. */
  function NewSong(req: SongRequest, audioUrl: Url, imageUrl: Url): Song
    requires SongRequestError(req) == None
  {
    Song(req.title.value, req.artist.value, audioUrl, imageUrl, req.duration.value, req.albumId)
  }

  /** The album `createAlbum` saves, with an empty song list. */
  function NewAlbum(req: AlbumRequest, currentYear: int, imageUrl: Url): Album
    requires AlbumRequestError(req, currentYear) == None
  {
    Album(req.title.value, req.artist.value, imageUrl, req.releaseYear.value, [])
  }

  /** `checkAdmin`: always 200 with `{ admin: true }`. */
  function CheckAdmin(): (r: Reply)
    ensures r.Json? && r.status == 200 && r.body.AdminStatus? && r.body.admin
  {
    Json(200, AdminStatus(true))
  }

  /** The catalog store: the songs and albums collections and the source of fresh object ids. */
  class Catalog {
    var songs: map<SongId, Song>
    var albums: map<AlbumId, Album>
    var nextId: nat

    ghost predicate Valid()
      reads this
    {
      && Linked(songs, albums)
      && (forall s :: s in songs ==> s < nextId)
      && (forall a :: a in albums ==> a < nextId)
    }

    constructor ()
      ensures Valid() && songs == map[] && albums == map[]
    {
      songs, albums, nextId := map[], map[], 0;
    }

    /**
     * `createSong`: validate, upload the audio file then the image, save the
     * song and push its id onto its album. A failed check answers 400 with
     * its message before anything is uploaded or saved; a failed upload
     * passes the error on and saves nothing.
     */
    method CreateSong(req: SongRequest, upload: UploadedFile -> Option<Url>) returns (reply: Reply, uploads: seq<UploadedFile>)
      requires Valid()
      modifies this
      ensures Valid()
      ensures SongRequestError(req).Some? ==>
        && reply == Json(400, Message(SongRequestError(req).value))
        && uploads == []
        && unchanged(this)
      ensures SongRequestError(req) == None ==>
        var audio := req.files.value.audioFile.value;
        var image := req.files.value.imageFile.value;
        && uploads == (if upload(audio) == None then [audio] else [audio, image])
        && (upload(audio) == None ==> reply == NextError(UploadFailed(audio)) && unchanged(this))
        && (upload(audio).Some? && upload(image) == None ==> reply == NextError(UploadFailed(image)) && unchanged(this))
        && (upload(audio).Some? && upload(image).Some? ==>
          var id := old(nextId);
          var song := NewSong(req, upload(audio).value, upload(image).value);
          && id !in old(songs)
          && songs == old(songs)[id := song]
          && albums == (if req.albumId.Some? then PushSong(old(albums), req.albumId.value, id) else old(albums))
          && reply == Json(201, SongCreated(id, song)))
    {
      var error := SongRequestError(req);
      if error.Some? {
        return Json(400, Message(error.value)), [];
      }
      var audio := req.files.value.audioFile.value;
      var image := req.files.value.imageFile.value;
      uploads := [audio];
      var audioUrl := upload(audio);
      if audioUrl == None {
        return NextError(UploadFailed(audio)), uploads;
      }
      uploads := uploads + [image];
      var imageUrl := upload(image);
      if imageUrl == None {
        return NextError(UploadFailed(image)), uploads;
      }
      var song := NewSong(req, audioUrl.value, imageUrl.value);
      var id := nextId;
      LinkedAfterCreateSong(songs, albums, id, song);
      var albums' := if req.albumId.Some? then PushSong(albums, req.albumId.value, id) else albums;
      assert albums'.Keys == albums.Keys;
      songs, albums, nextId := songs[id := song], albums', id + 1;
      reply := Json(201, SongCreated(id, song));
    }

    /**
     * `deleteSong`: pull the song from its album, then delete it. An unknown
     * id makes `song.albumId` throw, so the error goes to `next` and nothing changes.
     */
    method DeleteSong(id: SongId) returns (reply: Reply)
      requires Valid()
      modifies this
      ensures Valid()
      ensures id !in old(songs) ==> reply == NextError(SongNotFound(id)) && unchanged(this)
      ensures id in old(songs) ==>
        && songs == old(songs) - {id}
        && albums == (if old(songs)[id].albumId.Some?
                      then PullSong(old(albums), old(songs)[id].albumId.value, id) else old(albums))
        && (forall a :: a in albums ==> id !in albums[a].songs)
        && reply == Json(200, Message(SongDeleted))
    {
      if id !in songs {
        return NextError(SongNotFound(id));
      }
      var song := songs[id];
      LinkedAfterDeleteSong(songs, albums, id);
      if song.albumId.Some? {
        albums := PullSong(albums, song.albumId.value, id);
      }
      songs := songs - {id};
      reply := Json(200, Message(SongDeleted));
    }

    /** `createAlbum`: validate, upload the image, save the album with no songs. */
    method CreateAlbum(req: AlbumRequest, upload: UploadedFile -> Option<Url>, currentYear: int)
      returns (reply: Reply, uploads: seq<UploadedFile>)
      requires Valid()
      modifies this
      ensures Valid()
      ensures AlbumRequestError(req, currentYear).Some? ==>
        && reply == Json(400, Message(AlbumRequestError(req, currentYear).value))
        && uploads == []
        && unchanged(this)
      ensures AlbumRequestError(req, currentYear) == None ==>
        var image := req.files.value.imageFile.value;
        && uploads == [image]
        && (upload(image) == None ==> reply == NextError(UploadFailed(image)) && unchanged(this))
        && (upload(image).Some? ==>
          var id := old(nextId);
          var album := NewAlbum(req, currentYear, upload(image).value);
          && id !in old(albums)
          && albums == old(albums)[id := album]
          && songs == old(songs)
          && reply == Json(201, AlbumCreated(id, album)))
    {
      var error := AlbumRequestError(req, currentYear);
      if error.Some? {
        return Json(400, Message(error.value)), [];
      }
      var image := req.files.value.imageFile.value;
      uploads := [image];
      var imageUrl := upload(image);
      if imageUrl == None {
        return NextError(UploadFailed(image)), uploads;
      }
      var album := NewAlbum(req, currentYear, imageUrl.value);
      var id := nextId;
      LinkedAfterCreateAlbum(songs, albums, id, album);
      nextId := nextId + 1;
      albums := albums[id := album];
      reply := Json(201, AlbumCreated(id, album));
    }

    /**
     * `deleteAlbum`: delete every song whose `albumId` is `id`, then the album.
     * Songs of other albums and the other albums stay as they were.
     */
    method DeleteAlbum(id: AlbumId) returns (reply: Reply)
      requires Valid()
      modifies this
      ensures Valid()
      ensures songs == DropAlbumSongs(old(songs), id)
      ensures albums == old(albums) - {id}
      ensures forall s :: s in songs ==> songs[s].albumId != Some(id)
      ensures forall a, s :: a in albums && s in albums[a].songs ==> s in songs && songs[s] == old(songs)[s]
      ensures reply == Json(200, Message(AlbumDeleted))
    {
      LinkedAfterDeleteAlbum(songs, albums, id);
      songs := DropAlbumSongs(songs, id);
      albums := albums - {id};
      reply := Json(200, Message(AlbumDeleted));
    }
  }
}
