/** `process_video` in its two versions (api/process.py and
    backend/api/process.py), with the `/api/process` route's handler: the
    video id is taken from the query; when a metadata record is cached, the
    code awaits the result of the plain function `ensure_audio_downloaded`,
    which raises, so the route answers an error instead of the record;
    otherwise a record `{id, title, artist, duration, hasLyrics, album?}` is
    assembled from YouTube Music and yt-dlp with fallbacks and defaults,
    cached, and returned.

    The services are parameters: the outcome of each `get_song` call and of
    `extract_info`, as decoded Python values or `Raised`, the parsing of a
    string by `int()`, and the text of the exception raised on a cache
    hit. The audio downloads themselves are not part of this model. */
module Process {
  import opened PyValue
  import VideoId

  /** The metadata record `{id, title, artist, duration, hasLyrics,
      album?}`; `album` is None when the key is left out. */
  datatype Metadata = Metadata(id: string, title: Value, artist: Value, duration: Value, hasLyrics: bool,
                               album: Option<Value>)

  /** A reply: the metadata record or `{"error": message}`. */
  datatype Reply = Record(meta: Metadata) | Error(message: string)

  const InvalidReply: Reply := Error("Invalid video ID or URL")

  const MetadataCacheDir: string := "cache/metadata"

  function MetadataPath(videoId: string): string {
    MetadataCacheDir + "/" + videoId + ".json"
  }

  /** The record built from the locals: the `album` key is written only
      when the album is truthy. */
  function MetadataOf(videoId: string, title: Value, artist: Value, duration: Value, hasLyrics: bool, album: Value)
    : (m: Metadata)
    ensures m.album.Some? <==> Truthy(album)
  {
    Metadata(videoId, title, artist, duration, hasLyrics, if Truthy(album) then Some(album) else None)
  }

  /** `vd['album'].get('name') if isinstance(vd['album'], dict) else vd['album']` */
  function AlbumName(album: Value): Value {
    if album.VDict? then Get(album, "name", VNone).value else album
  }

  // ---------------------------------------------------------------------
  // api/process.py

  /** The locals `title`, `duration`, `artist`, `album`, `has_lyrics`. */
  datatype Fields = Fields(title: Value, duration: Value, artist: Value, album: Value, hasLyrics: bool)

  /** Their values before the YouTube Music step. */
  const Defaults := Fields(VNone, VInt(0), VStr("Unknown Artist"), VNone, false)

  /** The YouTube Music step: when the song information has
      `videoDetails`, take the title (default "Unknown"), `int()` of
      `lengthSeconds` (0 when that raises), `author`, the album and whether
      the lyrics are truthy. A step that raises leaves the defaults. */
  function FromYtMusic(songInfo: Outcome<Value>, parseInt: string -> Option<int>): Fields {
    if songInfo.Raised? || !Truthy(songInfo.value) then Defaults
    else
      var si := songInfo.value;
      match Contains(si, "videoDetails")
      case Raised => Defaults
      case Ok(has) =>
        if !has then Defaults
        else
          match Subscript(si, "videoDetails")
          case Raised => Defaults
          case Ok(vd) =>
            match Get(vd, "title", VStr("Unknown"))
            case Raised => Defaults
            case Ok(title) =>
              var length := Lookup(vd.entries, "lengthSeconds");
              var duration :=
                if length.None? then VInt(0)
                else if ToInt(length.value, parseInt).Ok? then VInt(ToInt(length.value, parseInt).value)
                else VInt(0);
              var author := Lookup(vd.entries, "author");
              var album := Lookup(vd.entries, "album");
              var lyrics := Lookup(si.entries, "lyrics");
              Fields(title, duration,
                     if author.Some? then author.value else VStr("Unknown Artist"),
                     if album.Some? then AlbumName(album.value) else VNone,
                     lyrics.Some? && Truthy(lyrics.value))
  }

  /** The yt-dlp step, run when no title is known: take the title, a
      duration when none is known, the artist or uploader when the artist
      is still "Unknown Artist", and the album when none is known. When
      yt-dlp raises and there is still no title, the title becomes
      "Video {id}". */
  function FromYtdlp(f: Fields, info: Outcome<Value>, videoId: string): Fields {
    var failed := f.(title := if !Truthy(f.title) then VStr("Video " + videoId) else f.title);
    if info.Raised? then failed
    else
      match Get(info.value, "title", VStr("Unknown"))
      case Raised => failed
      case Ok(t) =>
        var e := info.value.entries;
        var title := if !Truthy(f.title) then t else f.title;
        var duration := if !Truthy(f.duration) then Get(info.value, "duration", VInt(0)).value else f.duration;
        var artist :=
          if f.artist != VStr("Unknown Artist") then f.artist
          else if Lookup(e, "artist").Some? then Lookup(e, "artist").value
          else if Lookup(e, "uploader").Some? then Lookup(e, "uploader").value
          else f.artist;
        var album := if !Truthy(f.album) && Lookup(e, "album").Some? then Lookup(e, "album").value else f.album;
        Fields(title, duration, artist, album, f.hasLyrics)
  }

  /** The fields after both steps. */
  function ApiFields(videoId: string, songInfo: Outcome<Value>, info: Outcome<Value>, parseInt: string -> Option<int>)
    : Fields
  {
    var f := FromYtMusic(songInfo, parseInt);
    if !Truthy(f.title) then FromYtdlp(f, info, videoId) else f
  }

  /** The record the api's `process_video` builds and caches; a falsy
      title becomes "Unknown". */
  function ApiMetadata(videoId: string, songInfo: Outcome<Value>, info: Outcome<Value>, parseInt: string -> Option<int>)
    : Metadata
  {
    var f := ApiFields(videoId, songInfo, info, parseInt);
    MetadataOf(videoId, if Truthy(f.title) then f.title else VStr("Unknown"), f.artist, f.duration, f.hasLyrics, f.album)
  }

  /** The record's title is never falsy, its id is the video id, and it
      carries an album exactly when the album found is truthy. */
  lemma ApiMetadataShape(videoId: string, songInfo: Outcome<Value>, info: Outcome<Value>, parseInt: string -> Option<int>)
    ensures var m := ApiMetadata(videoId, songInfo, info, parseInt);
      && m.id == videoId
      && Truthy(m.title)
      && (m.album.Some? <==> Truthy(ApiFields(videoId, songInfo, info, parseInt).album))
  {
  }

  /** A `lengthSeconds` that `int()` rejects gives duration 0 when YouTube
      Music gave a title (yt-dlp is then not consulted). */
  lemma NonIntegerLengthIsZero(videoId: string, si: seq<(string, Value)>, vd: seq<(string, Value)>, length: Value,
                               info: Outcome<Value>, parseInt: string -> Option<int>)
    requires si != [] && Lookup(si, "videoDetails") == Some(VDict(vd))
    requires Lookup(vd, "title").Some? && Truthy(Lookup(vd, "title").value)
    requires Lookup(vd, "lengthSeconds") == Some(length) && ToInt(length, parseInt).Raised?
    ensures ApiMetadata(videoId, Ok(VDict(si)), info, parseInt).duration == VInt(0)
  {
    assert Contains(VDict(si), "videoDetails") == Ok(true);
    assert Subscript(VDict(si), "videoDetails") == Ok(VDict(vd));
    assert Get(VDict(vd), "title", VStr("Unknown")) == Ok(Lookup(vd, "title").value);
    assert FromYtMusic(Ok(VDict(si)), parseInt).duration == VInt(0);
  }

  /** When YouTube Music gives no title and yt-dlp raises, the title is
      "Video {id}". */
  lemma YtdlpFailureTitle(videoId: string, songInfo: Outcome<Value>, parseInt: string -> Option<int>)
    requires !Truthy(FromYtMusic(songInfo, parseInt).title)
    ensures ApiMetadata(videoId, songInfo, Raised, parseInt).title == VStr("Video " + videoId)
  {
    var f := FromYtMusic(songInfo, parseInt);
    assert ApiFields(videoId, songInfo, Raised, parseInt) == FromYtdlp(f, Raised, videoId);
    assert FromYtdlp(f, Raised, videoId).title == VStr("Video " + videoId);
  }

  /** A title from YouTube Music makes the yt-dlp answer irrelevant. */
  lemma YtMusicTitleSkipsYtdlp(videoId: string, songInfo: Outcome<Value>, info1: Outcome<Value>, info2: Outcome<Value>,
                               parseInt: string -> Option<int>)
    requires Truthy(FromYtMusic(songInfo, parseInt).title)
    ensures ApiMetadata(videoId, songInfo, info1, parseInt) == ApiMetadata(videoId, songInfo, info2, parseInt)
  {
  }

  /** The yt-dlp step keeps whatever YouTube Music found: a known
      duration, a known artist other than "Unknown Artist", a truthy album
      and the lyrics flag. */
  lemma YtdlpKeepsKnownFields(f: Fields, info: Outcome<Value>, videoId: string)
    ensures var g := FromYtdlp(f, info, videoId);
      && (Truthy(f.duration) ==> g.duration == f.duration)
      && (f.artist != VStr("Unknown Artist") ==> g.artist == f.artist)
      && (Truthy(f.album) ==> g.album == f.album)
      && g.hasLyrics == f.hasLyrics
  {
  }

  // ---------------------------------------------------------------------
  // backend/api/process.py

  /** The artist and album after the backend's YouTube Music step, given
      the entries of the yt-dlp answer: `author` and the album from
      `videoDetails`; when a step raises, the `except` branch takes
      `artist` (else `uploader`) and `album` from the yt-dlp answer, over
      whatever was assigned before. */
  function BackendArtistAlbum(songInfo: Outcome<Value>, info: seq<(string, Value)>): (Value, Value) {
    var defaults := (VStr("Unknown Artist"), VNone);
    if songInfo.Raised? then YtdlpArtistAlbum(defaults, info)
    else if !Truthy(songInfo.value) then defaults
    else
      var si := songInfo.value;
      match Contains(si, "videoDetails")
      case Raised => YtdlpArtistAlbum(defaults, info)
      case Ok(has) =>
        if !has then defaults
        else
          match Subscript(si, "videoDetails")
          case Raised => YtdlpArtistAlbum(defaults, info)
          case Ok(vd) =>
            match Contains(vd, "author")
            case Raised => YtdlpArtistAlbum(defaults, info)
            case Ok(hasAuthor) =>
              var withAuthor := if hasAuthor then Subscript(vd, "author") else Ok(defaults.0);
              if withAuthor.Raised? then YtdlpArtistAlbum(defaults, info)
              else
                var current := (withAuthor.value, defaults.1);
                match Contains(vd, "album")
                case Raised => YtdlpArtistAlbum(current, info)
                case Ok(hasAlbum) =>
                  if !hasAlbum then current
                  else
                    match Subscript(vd, "album")
                    case Raised => YtdlpArtistAlbum(current, info)
                    case Ok(album) => (current.0, AlbumName(album))
  }

  /** The `except` branch: artist from `artist` or `uploader`, album from
      `album`, each only when the key is present. */
  function YtdlpArtistAlbum(current: (Value, Value), info: seq<(string, Value)>): (Value, Value) {
    var artist :=
      if Lookup(info, "artist").Some? then Lookup(info, "artist").value
      else if Lookup(info, "uploader").Some? then Lookup(info, "uploader").value
      else current.0;
    var album := if Lookup(info, "album").Some? then Lookup(info, "album").value else current.1;
    (artist, album)
  }

  /** `has_lyrics`: the second `get_song` answer has a `lyrics` key whose
      value is not None; a step that raises leaves False. */
  function HasLyrics(songInfo: Outcome<Value>): bool {
    if songInfo.Raised? || !Truthy(songInfo.value) then false
    else
      match Contains(songInfo.value, "lyrics")
      case Raised => false
      case Ok(has) =>
        if !has then false
        else
          match Subscript(songInfo.value, "lyrics")
          case Raised => false
          case Ok(lyrics) => lyrics != VNone
  }

  /** The record the backend's `process_video` builds, or `Raised` when
      yt-dlp raises or its answer has no `get`. */
  function BackendMetadata(videoId: string, info: Outcome<Value>, songInfo: Outcome<Value>, songInfoAgain: Outcome<Value>)
    : Outcome<Metadata>
  {
    if info.Raised? then Raised
    else
      match Get(info.value, "title", VStr("Unknown"))
      case Raised => Raised
      case Ok(title) =>
        var duration := Get(info.value, "duration", VInt(0)).value;
        var artistAlbum := BackendArtistAlbum(songInfo, info.value.entries);
        Ok(MetadataOf(videoId, title, artistAlbum.0, duration, HasLyrics(songInfoAgain), artistAlbum.1))
  }

  /** For a dictionary answer, `hasLyrics` holds exactly when the key
      `lyrics` is present with a value other than None. */
  lemma HasLyricsIff(si: seq<(string, Value)>)
    ensures HasLyrics(Ok(VDict(si))) <==> Lookup(si, "lyrics").Some? && Lookup(si, "lyrics").value != VNone
  {
  }

  /** When the first `get_song` raises, the artist and album come from the
      yt-dlp answer, with the defaults when it lacks them. */
  lemma SongInfoFailureUsesYtdlp(info: seq<(string, Value)>)
    ensures Lookup(info, "artist").Some? ==> BackendArtistAlbum(Raised, info).0 == Lookup(info, "artist").value
    ensures Lookup(info, "artist").None? && Lookup(info, "uploader").None? ==>
      BackendArtistAlbum(Raised, info).0 == VStr("Unknown Artist")
    ensures Lookup(info, "album").None? ==> BackendArtistAlbum(Raised, info).1 == VNone
  {
  }

  // ---------------------------------------------------------------------
  // The metadata cache and process_video

  /** The metadata cache directory: path to stored record. */
  type Cache = map<string, Metadata>

  /** The reply on a cache hit, as written: `await
      ensure_audio_downloaded(video_id)` awaits the None that a plain
      function returns, which raises `TypeError`; nothing in
      `process_video` catches it, and the route answers
      `{"error": str(e)}`. The cached record is never returned. */
  function CacheHit(cached: Metadata, awaitFailure: string): Reply {
    Error(awaitFailure)
  }

  /** The reply on a cache hit as evidently intended: the cached record. */
  function IntendedCacheHit(cached: Metadata): Reply {
    Record(cached)
  }

  /** The api's `process_video` behind its route, as written: the reply
      and the new cache. */
  function ApiProcess(files: Cache, query: string, songInfo: Outcome<Value>, info: Outcome<Value>,
                      parseInt: string -> Option<int>, awaitFailure: string): (Reply, Cache)
  {
    var found := VideoId.ExtractVideoId(query);
    if found.None? then (InvalidReply, files)
    else
      var path := MetadataPath(found.value);
      if path in files then (CacheHit(files[path], awaitFailure), files)
      else
        var m := ApiMetadata(found.value, songInfo, info, parseInt);
        (Record(m), files[path := m])
  }

  /** The api's `process_video` with the intended cache hit. */
  function IntendedApiProcess(files: Cache, query: string, songInfo: Outcome<Value>, info: Outcome<Value>,
                              parseInt: string -> Option<int>): (Reply, Cache)
  {
    var found := VideoId.ExtractVideoId(query);
    if found.None? then (InvalidReply, files)
    else
      var path := MetadataPath(found.value);
      if path in files then (IntendedCacheHit(files[path]), files)
      else
        var m := ApiMetadata(found.value, songInfo, info, parseInt);
        (Record(m), files[path := m])
  }

  /** The backend's `process_video` behind its route, as written. */
  function BackendProcess(files: Cache, query: string, info: Outcome<Value>, songInfo: Outcome<Value>,
                          songInfoAgain: Outcome<Value>, failureText: string, awaitFailure: string): (Reply, Cache)
  {
    var found := VideoId.ExtractVideoId(query);
    if found.None? then (InvalidReply, files)
    else
      var path := MetadataPath(found.value);
      if path in files then (CacheHit(files[path], awaitFailure), files)
      else
        match BackendMetadata(found.value, info, songInfo, songInfoAgain)
        case Raised => (Error(failureText), files)
        case Ok(m) => (Record(m), files[path := m])
  }

  /** The backend's `process_video` with the intended cache hit. */
  function IntendedBackendProcess(files: Cache, query: string, info: Outcome<Value>, songInfo: Outcome<Value>,
                                  songInfoAgain: Outcome<Value>, failureText: string): (Reply, Cache)
  {
    var found := VideoId.ExtractVideoId(query);
    if found.None? then (InvalidReply, files)
    else
      var path := MetadataPath(found.value);
      if path in files then (IntendedCacheHit(files[path]), files)
      else
        match BackendMetadata(found.value, info, songInfo, songInfoAgain)
        case Raised => (Error(failureText), files)
        case Ok(m) => (Record(m), files[path := m])
  }

  /** As written, a repeated request for a valid id never gets its record:
      the first request for an uncached id caches and returns the record,
      and the next one answers the error raised by the await, leaving the
      cache as it is. */
  lemma ApiRepeatFails(files: Cache, query: string, songInfo: Outcome<Value>, info: Outcome<Value>,
                       songInfo2: Outcome<Value>, info2: Outcome<Value>, parseInt: string -> Option<int>,
                       awaitFailure: string)
    requires VideoId.ExtractVideoId(query).Some?
    ensures var (first, after) := ApiProcess(files, query, songInfo, info, parseInt, awaitFailure);
      && (MetadataPath(VideoId.ExtractVideoId(query).value) !in files ==> first.Record?)
      && ApiProcess(after, query, songInfo2, info2, parseInt, awaitFailure) == (Error(awaitFailure), after)
  {
  }

  /** With the intended cache hit, repeating a request gives the same reply
      and leaves the cache as it is, whatever the services answer now. */
  lemma IntendedApiRepeatIsStable(files: Cache, query: string, songInfo: Outcome<Value>, info: Outcome<Value>,
                                  songInfo2: Outcome<Value>, info2: Outcome<Value>, parseInt: string -> Option<int>)
    ensures var (first, after) := IntendedApiProcess(files, query, songInfo, info, parseInt);
      IntendedApiProcess(after, query, songInfo2, info2, parseInt) == (first, after)
  {
  }

  /** As written, once the backend has answered a valid id with its record,
      every repeated request answers the error raised by the await. */
  lemma BackendRepeatFails(files: Cache, query: string, info: Outcome<Value>, songInfo: Outcome<Value>,
                           songInfoAgain: Outcome<Value>, info2: Outcome<Value>, songInfo2: Outcome<Value>,
                           songInfoAgain2: Outcome<Value>, failureText: string, awaitFailure: string)
    requires BackendProcess(files, query, info, songInfo, songInfoAgain, failureText, awaitFailure).0.Record?
    ensures var (first, after) := BackendProcess(files, query, info, songInfo, songInfoAgain, failureText, awaitFailure);
      BackendProcess(after, query, info2, songInfo2, songInfoAgain2, failureText, awaitFailure)
        == (Error(awaitFailure), after)
  {
  }

  /** With the intended cache hit, once the backend has answered with a
      record, a repeated request gives that record again and leaves the
      cache as it is. */
  lemma IntendedBackendRepeatIsStable(files: Cache, query: string, info: Outcome<Value>, songInfo: Outcome<Value>,
                                      songInfoAgain: Outcome<Value>, info2: Outcome<Value>,
                                      songInfo2: Outcome<Value>, songInfoAgain2: Outcome<Value>,
                                      failureText: string)
    ensures var (first, after) := IntendedBackendProcess(files, query, info, songInfo, songInfoAgain, failureText);
      first.Record? ==>
        IntendedBackendProcess(after, query, info2, songInfo2, songInfoAgain2, failureText) == (first, after)
  {
  }

  /** The metadata cache directory: a map from path to the stored record. */
  class MetadataStore {
    var files: Cache

    constructor(initial: Cache)
      ensures files == initial
    {
      files := initial;
    }

    /** The api's `process_video` behind its route: an invalid query is
        refused; a cache hit answers the error raised by awaiting
        `ensure_audio_downloaded`, whose text is a parameter; otherwise the
        record is built by the YouTube Music step and, without a title, the
        yt-dlp step, then cached and returned. */
    method ProcessVideoApi(query: string, songInfo: Outcome<Value>, info: Outcome<Value>, parseInt: string -> Option<int>,
                           awaitFailure: string)
      returns (reply: Reply)
      modifies this
      ensures (reply, files) == ApiProcess(old(files), query, songInfo, info, parseInt, awaitFailure)
      ensures VideoId.ExtractVideoId(query).None? ==> reply == InvalidReply && files == old(files)
      ensures VideoId.ExtractVideoId(query).Some? ==>
        var path := MetadataPath(VideoId.ExtractVideoId(query).value);
        if path in old(files) then reply == Error(awaitFailure) && files == old(files)
        else
          && reply == Record(ApiMetadata(VideoId.ExtractVideoId(query).value, songInfo, info, parseInt))
          && files == old(files)[path := reply.meta]
    {
      var found := VideoId.ExtractVideoId(query);
      if found.None? {
        return InvalidReply;
      }
      var videoId := found.value;
      var path := MetadataPath(videoId);
      if path in files {
        return CacheHit(files[path], awaitFailure);
      }
      var f := YtMusicStep(songInfo, parseInt);
      if !Truthy(f.title) {
        f := YtdlpStep(f, info, videoId);
      }
      var meta := MetadataOf(videoId, if Truthy(f.title) then f.title else VStr("Unknown"), f.artist, f.duration,
                             f.hasLyrics, f.album);
      files := files[path := meta];
      reply := Record(meta);
    }

    /** The backend's `process_video` behind its route: an invalid query
        is refused; a cache hit answers the error raised by awaiting
        `ensure_audio_downloaded`; a yt-dlp failure gives the error reply
        and caches nothing; otherwise the record is built, cached and
        returned. Both error texts are parameters. */
    method ProcessVideoBackend(query: string, info: Outcome<Value>, songInfo: Outcome<Value>,
                               songInfoAgain: Outcome<Value>, failureText: string, awaitFailure: string)
      returns (reply: Reply)
      modifies this
      ensures (reply, files) == BackendProcess(old(files), query, info, songInfo, songInfoAgain, failureText, awaitFailure)
      ensures VideoId.ExtractVideoId(query).None? ==> reply == InvalidReply && files == old(files)
      ensures VideoId.ExtractVideoId(query).Some? ==>
        var videoId := VideoId.ExtractVideoId(query).value;
        if MetadataPath(videoId) in old(files) then reply == Error(awaitFailure) && files == old(files)
        else match BackendMetadata(videoId, info, songInfo, songInfoAgain)
          case Raised => reply == Error(failureText) && files == old(files)
          case Ok(m) => reply == Record(m) && files == old(files)[MetadataPath(videoId) := m]
    {
      var found := VideoId.ExtractVideoId(query);
      if found.None? {
        return InvalidReply;
      }
      var videoId := found.value;
      var path := MetadataPath(videoId);
      if path in files {
        return CacheHit(files[path], awaitFailure);
      }
      if info.Raised? {
        return Error(failureText);
      }
      var t := Get(info.value, "title", VStr("Unknown"));
      if t.Raised? {
        return Error(failureText);
      }
      var duration := Get(info.value, "duration", VInt(0)).value;
      var artist, album := ArtistAndAlbum(songInfo, info.value.entries);
      var hasLyrics := LyricsFlag(songInfoAgain);
      var meta := MetadataOf(videoId, t.value, artist, duration, hasLyrics, album);
      files := files[path := meta];
      reply := Record(meta);
    }
  }

  /** The api's YouTube Music `try` block over the locals. */
  method YtMusicStep(songInfo: Outcome<Value>, parseInt: string -> Option<int>) returns (f: Fields)
    ensures f == FromYtMusic(songInfo, parseInt)
  {
    f := Defaults;
    if songInfo.Raised? || !Truthy(songInfo.value) {
      return;
    }
    var has := Contains(songInfo.value, "videoDetails");
    if has.Raised? || !has.value {
      return;
    }
    var vd := Subscript(songInfo.value, "videoDetails");
    if vd.Raised? {
      return;
    }
    var t := Get(vd.value, "title", VStr("Unknown"));
    if t.Raised? {
      return;
    }
    var length := Lookup(vd.value.entries, "lengthSeconds");
    if length.Some? {
      var n := ToInt(length.value, parseInt);
      f := f.(duration := if n.Ok? then VInt(n.value) else VInt(0));
    }
    var author := Lookup(vd.value.entries, "author");
    if author.Some? {
      f := f.(artist := author.value);
    }
    var a := Lookup(vd.value.entries, "album");
    if a.Some? {
      f := f.(album := AlbumName(a.value));
    }
    var lyrics := Lookup(songInfo.value.entries, "lyrics");
    f := f.(title := t.value, hasLyrics := lyrics.Some? && Truthy(lyrics.value));
  }

  /** The api's yt-dlp `try` block over the locals. */
  method YtdlpStep(f: Fields, info: Outcome<Value>, videoId: string) returns (g: Fields)
    ensures g == FromYtdlp(f, info, videoId)
  {
    g := f;
    var t := if info.Ok? then Get(info.value, "title", VStr("Unknown")) else Raised;
    if t.Raised? {
      if !Truthy(g.title) {
        g := g.(title := VStr("Video " + videoId));
      }
      return;
    }
    var e := info.value.entries;
    if !Truthy(g.title) {
      g := g.(title := t.value);
    }
    if !Truthy(g.duration) {
      g := g.(duration := Get(info.value, "duration", VInt(0)).value);
    }
    if g.artist == VStr("Unknown Artist") {
      if Lookup(e, "artist").Some? {
        g := g.(artist := Lookup(e, "artist").value);
      } else if Lookup(e, "uploader").Some? {
        g := g.(artist := Lookup(e, "uploader").value);
      }
    }
    if !Truthy(g.album) && Lookup(e, "album").Some? {
      g := g.(album := Lookup(e, "album").value);
    }
  }

  /** The backend's `has_lyrics` `try` block. */
  method LyricsFlag(songInfo: Outcome<Value>) returns (hasLyrics: bool)
    ensures hasLyrics == HasLyrics(songInfo)
  {
    hasLyrics := false;
    if songInfo.Ok? && Truthy(songInfo.value) {
      var has := Contains(songInfo.value, "lyrics");
      if has.Ok? && has.value {
        var lyrics := Subscript(songInfo.value, "lyrics");
        if lyrics.Ok? {
          hasLyrics := lyrics.value != VNone;
        }
      }
    }
  }

  /** The backend's inner `try`/`except` around the first `get_song`. */
  method ArtistAndAlbum(songInfo: Outcome<Value>, info: seq<(string, Value)>) returns (artist: Value, album: Value)
    ensures (artist, album) == BackendArtistAlbum(songInfo, info)
  {
    artist, album := VStr("Unknown Artist"), VNone;
    var raised := false;
    if songInfo.Raised? {
      raised := true;
    } else if Truthy(songInfo.value) {
      var has := Contains(songInfo.value, "videoDetails");
      if has.Raised? {
        raised := true;
      } else if has.value {
        var vd := Subscript(songInfo.value, "videoDetails");
        if vd.Raised? {
          raised := true;
        } else {
          var hasAuthor := Contains(vd.value, "author");
          if hasAuthor.Raised? {
            raised := true;
          } else {
            if hasAuthor.value {
              var a := Subscript(vd.value, "author");
              if a.Raised? {
                raised := true;
              } else {
                artist := a.value;
              }
            }
            if !raised {
              var hasAlbum := Contains(vd.value, "album");
              if hasAlbum.Raised? {
                raised := true;
              } else if hasAlbum.value {
                var a := Subscript(vd.value, "album");
                if a.Raised? {
                  raised := true;
                } else {
                  album := AlbumName(a.value);
                }
              }
            }
          }
        }
      }
    }
    if raised {
      if Lookup(info, "artist").Some? {
        artist := Lookup(info, "artist").value;
      } else if Lookup(info, "uploader").Some? {
        artist := Lookup(info, "uploader").value;
      }
      if Lookup(info, "album").Some? {
        album := Lookup(info, "album").value;
      }
    }
  }
}
