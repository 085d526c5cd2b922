/** `get_playlist` and its yt-dlp fallback `get_playlist_ytdlp`
    (api/playlist.py): the tracks of a playlist, each with its id and
    title, from YouTube Music, or from yt-dlp when any YouTube Music step
    raises.

    The services are parameters: the outcome of `ytmusic.get_playlist` and
    of yt-dlp's `extract_info`, as decoded Python values or `Raised`, and
    the text `str(e)` of the exception yt-dlp's step raised. The pause
    before the request is not part of this model. */
module Playlist {
  import opened PyValue

  /** `{"id": ..., "title": ...}` */
  datatype TrackRef = TrackRef(id: Value, title: Value)

  /** `{"title": ..., "tracks": [...]}` or `{"error": message}`. */
  datatype Reply = Listing(title: Value, tracks: seq<TrackRef>) | Failure(message: string)

  const NotFound: Reply := Failure("Playlist not found")

  /** Which service the items come from: YouTube Music tracks carry their
      id under `videoId`; yt-dlp entries under `id`, and falsy entries are
      skipped first. */
  datatype Source = YtMusic | Ytdlp

  function IdKey(src: Source): string {
    if src.YtMusic? then "videoId" else "id"
  }

  /** Is the item's id key looked at: every YouTube Music track, only
      truthy yt-dlp entries. */
  predicate Examined(src: Source, item: Value) {
    src.YtMusic? || Truthy(item)
  }

  /** The loop body for one item: skip it, keep `{id, title}` with title
      default "Unknown", or raise (a membership test or subscript on a
      value that does not support it). */
  function TrackOf(src: Source, item: Value): Outcome<Option<TrackRef>> {
    if !Examined(src, item) then Ok(None)
    else
      match Contains(item, IdKey(src))
      case Raised => Raised
      case Ok(has) =>
        if !has then Ok(None)
        else
          match Subscript(item, IdKey(src))
          case Raised => Raised
          case Ok(id) =>
            match Get(item, "title", VStr("Unknown"))
            case Raised => Raised
            case Ok(title) => Ok(Some(TrackRef(id, title)))
  }

  /** An item is skipped exactly when it is not examined or lacks the id
      key; a track is kept only from a dictionary, with the id stored
      under the id key and the title or "Unknown". */
  lemma TrackOfMeaning(src: Source, item: Value)
    ensures var r := TrackOf(src, item);
      && (r == Ok(None) <==> !Examined(src, item) || Contains(item, IdKey(src)) == Ok(false))
      && (r.Ok? && r.value.Some? ==>
           && item.VDict?
           && Lookup(item.entries, IdKey(src)) == Some(r.value.value.id)
           && r.value.value.title == (if Lookup(item.entries, "title").Some? then Lookup(item.entries, "title").value
                                      else VStr("Unknown")))
  {
  }

  /** The `for` loop over the items: the kept tracks in order, or `Raised`
      as soon as one item raises. */
  function Collect(src: Source, items: seq<Value>): Outcome<seq<TrackRef>> {
    if items == [] then Ok([])
    else
      var prev := Collect(src, items[..|items| - 1]);
      if prev.Raised? then Raised
      else
        match TrackOf(src, items[|items| - 1])
        case Raised => Raised
        case Ok(None) => prev
        case Ok(Some(t)) => Ok(prev.value + [t])
  }

  /** The items that give a track. */
  predicate Kept(src: Source, item: Value) {
    TrackOf(src, item).Ok? && TrackOf(src, item).value.Some?
  }

  /** The kept items in their original order. */
  function KeptItems(src: Source, items: seq<Value>): (r: seq<Value>)
    ensures |r| <= |items|
    ensures forall x :: x in r ==> x in items && Kept(src, x)
  {
    if items == [] then []
    else
      var prev := KeptItems(src, items[..|items| - 1]);
      var last := items[|items| - 1];
      if Kept(src, last) then prev + [last] else prev
  }

  /** Collecting succeeds exactly when no item raises. */
  lemma {:induction false} CollectOkIff(src: Source, items: seq<Value>)
    ensures Collect(src, items).Ok? <==> forall i :: 0 <= i < |items| ==> TrackOf(src, items[i]).Ok?
  {
    if items != [] {
      var init := items[..|items| - 1];
      CollectOkIff(src, init);
      assert forall i :: 0 <= i < |init| ==> init[i] == items[i];
      var t := TrackOf(src, items[|items| - 1]);
      assert Collect(src, items).Ok? <==> Collect(src, init).Ok? && t.Ok?;
    }
  }

  /** A successful collection yields one track per kept item, in order,
      each the track of that item (its id, and its title or "Unknown"). */
  lemma {:induction false} CollectKept(src: Source, items: seq<Value>)
    requires Collect(src, items).Ok?
    ensures var out := Collect(src, items).value;
      && |out| == |KeptItems(src, items)|
      && forall k :: 0 <= k < |out| ==> TrackOf(src, KeptItems(src, items)[k]) == Ok(Some(out[k]))
  {
    if items != [] {
      var init := items[..|items| - 1];
      var last := items[|items| - 1];
      var prev := Collect(src, init).value;
      CollectKept(src, init);
      var t := TrackOf(src, last);
      if t.value.Some? {
        assert KeptItems(src, items) == KeptItems(src, init) + [last];
        assert Collect(src, items) == Ok(prev + [t.value.value]);
      } else {
        assert KeptItems(src, items) == KeptItems(src, init);
      }
    }
  }

  /** Once an item raises, the whole loop raises. */
  lemma {:induction false} CollectRaisedStays(src: Source, items: seq<Value>, n: nat)
    requires 0 < n <= |items|
    requires TrackOf(src, items[n - 1]).Raised?
    ensures Collect(src, items).Raised?
    decreases |items|
  {
    if n < |items| {
      var init := items[..|items| - 1];
      assert init[n - 1] == items[n - 1];
      CollectRaisedStays(src, init, n);
    }
  }

  /** The loop itself, appending to `tracks`. */
  method CollectTracks(src: Source, items: seq<Value>) returns (tracks: Outcome<seq<TrackRef>>)
    ensures tracks == Collect(src, items)
  {
    var out: seq<TrackRef> := [];
    var i := 0;
    while i < |items|
      invariant 0 <= i <= |items|
      invariant Collect(src, items[..i]) == Ok(out)
    {
      var track := TrackOf(src, items[i]);
      if track.Raised? {
        CollectRaisedStays(src, items, i + 1);
        return Raised;
      }
      assert items[..i + 1][..i] == items[..i];
      if track.value.Some? {
        out := out + [track.value.value];
      }
      i := i + 1;
    }
    assert items[..i] == items;
    return Ok(out);
  }

  /** The listing built from a service's answer once the answer is known
      to be truthy and to hold `itemsKey`: its items collected, and its
      title or "Playlist"; `Raised` when a step raises. */
  function ListingOf(src: Source, answer: Value, itemsKey: string): Outcome<Reply> {
    match Subscript(answer, itemsKey)
    case Raised => Raised
    case Ok(container) =>
      match Iterate(container)
      case Raised => Raised
      case Ok(items) =>
        match Collect(src, items)
        case Raised => Raised
        case Ok(tracks) =>
          match Get(answer, "title", VStr("Playlist"))
          case Raised => Raised
          case Ok(title) => Ok(Listing(title, tracks))
  }

  /** `get_playlist_ytdlp`: "Playlist not found" for a falsy answer or
      one without `entries`; the error text for any step that raises. */
  function YtdlpReply(info: Outcome<Value>, failureText: string): Reply {
    if info.Raised? then Failure(failureText)
    else if !Truthy(info.value) then NotFound
    else
      match Contains(info.value, "entries")
      case Raised => Failure(failureText)
      case Ok(has) =>
        if !has then NotFound
        else
          var r := ListingOf(Ytdlp, info.value, "entries");
          if r.Raised? then Failure(failureText) else r.value
  }

  /** `get_playlist`: "Playlist not found" for a falsy answer or one
      without `tracks`; the yt-dlp fallback for any step that raises. */
  function PlaylistReply(playlist: Outcome<Value>, info: Outcome<Value>, failureText: string): Reply {
    if playlist.Raised? then YtdlpReply(info, failureText)
    else if !Truthy(playlist.value) then NotFound
    else
      match Contains(playlist.value, "tracks")
      case Raised => YtdlpReply(info, failureText)
      case Ok(has) =>
        if !has then NotFound
        else
          var r := ListingOf(YtMusic, playlist.value, "tracks");
          if r.Raised? then YtdlpReply(info, failureText) else r.value
  }

  /** `get_playlist_ytdlp`. */
  method GetPlaylistYtdlp(info: Outcome<Value>, failureText: string) returns (reply: Reply)
    ensures reply == YtdlpReply(info, failureText)
  {
    if info.Raised? {
      return Failure(failureText);
    }
    if !Truthy(info.value) {
      return NotFound;
    }
    var has := Contains(info.value, "entries");
    if has.Raised? {
      return Failure(failureText);
    }
    if !has.value {
      return NotFound;
    }
    var r := Gather(Ytdlp, info.value, "entries");
    reply := if r.Raised? then Failure(failureText) else r.value;
  }

  /** `get_playlist`. */
  method GetPlaylist(playlist: Outcome<Value>, info: Outcome<Value>, failureText: string) returns (reply: Reply)
    ensures reply == PlaylistReply(playlist, info, failureText)
  {
    if playlist.Raised? {
      reply := GetPlaylistYtdlp(info, failureText);
      return;
    }
    if !Truthy(playlist.value) {
      return NotFound;
    }
    var has := Contains(playlist.value, "tracks");
    if has.Raised? {
      reply := GetPlaylistYtdlp(info, failureText);
      return;
    }
    if !has.value {
      return NotFound;
    }
    var r := Gather(YtMusic, playlist.value, "tracks");
    if r.Raised? {
      reply := GetPlaylistYtdlp(info, failureText);
    } else {
      reply := r.value;
    }
  }

  /** The statements shared by both functions after the "not found" test. */
  method Gather(src: Source, answer: Value, itemsKey: string) returns (r: Outcome<Reply>)
    ensures r == ListingOf(src, answer, itemsKey)
  {
    var container := Subscript(answer, itemsKey);
    if container.Raised? {
      return Raised;
    }
    var items := Iterate(container.value);
    if items.Raised? {
      return Raised;
    }
    var tracks := CollectTracks(src, items.value);
    if tracks.Raised? {
      return Raised;
    }
    var title := Get(answer, "title", VStr("Playlist"));
    if title.Raised? {
      return Raised;
    }
    return Ok(Listing(title.value, tracks.value));
  }

  /** Every error reply is "Playlist not found" or the text of the yt-dlp
      exception: the outer handler, with its bot-detection message, is
      never reached, because the fallback catches every exception itself. */
  lemma ErrorsAreNotFoundOrYtdlp(playlist: Outcome<Value>, info: Outcome<Value>, failureText: string)
    ensures PlaylistReply(playlist, info, failureText).Failure? ==>
      PlaylistReply(playlist, info, failureText).message in {"Playlist not found", failureText}
  {
  }

  /** An answer from YouTube Music that is empty or has no `tracks` is
      final: yt-dlp is not consulted. */
  lemma NotFoundIsFinal(playlist: Value, info1: Outcome<Value>, info2: Outcome<Value>, failureText: string)
    requires !Truthy(playlist) || Contains(playlist, "tracks") == Ok(false)
    ensures PlaylistReply(Ok(playlist), info1, failureText) == NotFound
    ensures PlaylistReply(Ok(playlist), info1, failureText) == PlaylistReply(Ok(playlist), info2, failureText)
  {
  }

  /** A YouTube Music playlist dictionary whose tracks are a list of
      dictionaries gives its tracks in order: one per track holding a
      `videoId`, with that id; the listing's title is the playlist's
      `title`, or "Playlist" without one. */
  lemma {:induction false} YtMusicTracks(entries: seq<(string, Value)>, tracks: seq<Value>, info: Outcome<Value>,
                                         failureText: string)
    requires entries != [] && Lookup(entries, "tracks") == Some(VList(tracks))
    requires forall i :: 0 <= i < |tracks| ==> tracks[i].VDict?
    ensures var r := PlaylistReply(Ok(VDict(entries)), info, failureText);
      && r.Listing?
      && r.title == (if Lookup(entries, "title").Some? then Lookup(entries, "title").value else VStr("Playlist"))
      && |r.tracks| == |KeptItems(YtMusic, tracks)|
      && forall k :: 0 <= k < |r.tracks| ==>
           var item := KeptItems(YtMusic, tracks)[k];
           item.VDict? && Lookup(item.entries, "videoId") == Some(r.tracks[k].id)
  {
    assert Collect(YtMusic, tracks).Ok? by {
      CollectOkIff(YtMusic, tracks);
    }
    CollectKept(YtMusic, tracks);
    var out := Collect(YtMusic, tracks).value;
    assert ListingOf(YtMusic, VDict(entries), "tracks").Ok?;
    forall k | 0 <= k < |out|
      ensures var item := KeptItems(YtMusic, tracks)[k];
        item.VDict? && Lookup(item.entries, "videoId") == Some(out[k].id)
    {
      assert TrackOf(YtMusic, KeptItems(YtMusic, tracks)[k]) == Ok(Some(out[k]));
      TrackOfMeaning(YtMusic, KeptItems(YtMusic, tracks)[k]);
    }
  }
}
