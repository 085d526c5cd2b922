/** `search_youtube_music` in its two versions (api/search.py and
    backend/api/search.py) and the yt-dlp fallback search of api/search.py.
    A query recognised by `extract_video_id` gives one placeholder result;
    otherwise the records returned by YouTube Music are filtered and
    formatted with default values. Any exception while formatting is caught
    and the reply becomes the empty list (in api/search.py, unless it is
    classified as bot detection, which leads to a retry and finally to the
    yt-dlp search).

    The search services are parameters: each call's outcome is given as a
    decoded Python value, or `Raised` when the call itself fails. */
module Search {
  import opened PyValue
  import VideoId

  /** One result dict `{"id", "title", "artist", "duration"}`. The values
      are copied from the service's records, so they are any Python value. */
  datatype Track = Track(id: Value, title: Value, artist: Value, duration: Value)

  /** The single placeholder result for a query that is itself an id or a
      video URL. */
  function DirectHit(query: string, videoId: string): Track {
    Track(VStr(videoId), VStr(query), VStr("Unknown"), VStr("?"))
  }

  // ---------------------------------------------------------------------
  // Formatting of YouTube Music records

  /** The `artist` field: `artists[0]["name"]` when `"artists"` is present
      and its length is positive, "Unknown Artist" otherwise. `len` of a
      value without a length, `[0]` on a dictionary and `["name"]` on
      anything but a dictionary holding "name" raise. */
  function ArtistOf(entries: seq<(string, Value)>): Outcome<Value>
  {
    var artists := Lookup(entries, "artists");
    if artists.None? then Ok(VStr("Unknown Artist"))
    else
      match Len(artists.value)
      case Raised => Raised
      case Ok(n) =>
        if n == 0 then Ok(VStr("Unknown Artist"))
        else
          match First(artists.value)
          case Raised => Raised
          case Ok(first) => Subscript(first, "name")
  }

  /** No `"artists"` and an empty list give "Unknown Artist"; a non-empty
      list whose first element is a dictionary with a name gives that name;
      a non-empty list whose first element is not a dictionary raises. */
  lemma ArtistOfMeaning(entries: seq<(string, Value)>)
    ensures var r := ArtistOf(entries);
      && (Lookup(entries, "artists").None? ==> r == Ok(VStr("Unknown Artist")))
      && (Lookup(entries, "artists") == Some(VList([])) ==> r == Ok(VStr("Unknown Artist")))
      && (forall first, rest, name ::
            Lookup(entries, "artists") == Some(VList([first] + rest)) && first.VDict? && Lookup(first.entries, "name") == Some(name)
            ==> r == Ok(name))
      && (forall first, rest ::
            Lookup(entries, "artists") == Some(VList([first] + rest)) && !first.VDict?
            ==> r == Raised)
  {
  }

  /** The `duration` field: `"duration"` if present, else `"length"` if
      present, else "?". Presence counts, not truthiness. */
  function DurationOf(entries: seq<(string, Value)>): (r: Value)
    ensures Lookup(entries, "duration").Some? ==> r == Lookup(entries, "duration").value
    ensures Lookup(entries, "duration").None? && Lookup(entries, "length").Some? ==> r == Lookup(entries, "length").value
    ensures Lookup(entries, "duration").None? && Lookup(entries, "length").None? ==> r == VStr("?")
  {
    var d := Lookup(entries, "duration");
    if d.Some? then d.value
    else
      var l := Lookup(entries, "length");
      if l.Some? then l.value else VStr("?")
  }

  /** One pass of the formatting loop over a record: None when its
      `videoId` is falsy (the record is skipped), the formatted track
      otherwise, `Raised` when any step raises. */
  function FormatRecord(result: Value): Outcome<Option<Track>>
  {
    match Get(result, "videoId", VNone)
    case Raised => Raised
    case Ok(videoId) =>
      if !Truthy(videoId) then Ok(None)
      else
        match ArtistOf(result.entries)
        case Raised => Raised
        case Ok(artist) =>
          Ok(Some(Track(videoId, Get(result, "title", VStr("Unknown")).value, artist, DurationOf(result.entries))))
  }

  /** A record that is not a dictionary raises; a falsy `videoId` skips
      the record; a kept record's track copies its `videoId`, its title (or
      "Unknown"), its duration and its artist; and a kept record raises
      exactly when its artist lookup does. */
  lemma FormatRecordMeaning(result: Value)
    ensures var r := FormatRecord(result);
      && (!result.VDict? ==> r == Raised)
      && (result.VDict? && !Truthy(Get(result, "videoId", VNone).value) ==> r == Ok(None))
      && (r.Ok? && r.value.Some? ==>
            && result.VDict?
            && Lookup(result.entries, "videoId") == Some(r.value.value.id)
            && Truthy(r.value.value.id)
            && r.value.value.title == Get(result, "title", VStr("Unknown")).value
            && r.value.value.duration == DurationOf(result.entries)
            && ArtistOf(result.entries) == Ok(r.value.value.artist))
      && (result.VDict? && Truthy(Get(result, "videoId", VNone).value) ==>
            (r.Raised? <==> ArtistOf(result.entries).Raised?))
  {
  }

  /** The formatting loop over the first records: the tracks appended so
      far, or `Raised` once a record raised. */
  function FormatAll(results: seq<Value>): Outcome<seq<Track>> {
    if results == [] then Ok([])
    else
      var prev := FormatAll(results[..|results| - 1]);
      if prev.Raised? then Raised
      else
        match FormatRecord(results[|results| - 1])
        case Raised => Raised
        case Ok(None) => prev
        case Ok(Some(t)) => Ok(prev.value + [t])
  }

  /** A record is kept when it is a dictionary with a truthy `videoId`. */
  predicate Kept(result: Value) {
    result.VDict? && Truthy(Get(result, "videoId", VNone).value)
  }

  /** The kept records in their original order. */
  function KeptRecords(results: seq<Value>): (r: seq<Value>)
    ensures |r| <= |results|
    ensures forall x :: x in r ==> x in results && Kept(x)
  {
    if results == [] then []
    else
      var prev := KeptRecords(results[..|results| - 1]);
      var last := results[|results| - 1];
      if Kept(last) then prev + [last] else prev
  }

  /** Formatting succeeds exactly when every record is a dictionary and no
      kept record's artist lookup raises; it then yields one track per kept
      record, in order, each formatted from that record. */
  lemma {:induction false} FormatAllMeaning(results: seq<Value>)
    ensures FormatAll(results).Ok? <==>
      forall i :: 0 <= i < |results| ==> FormatRecord(results[i]).Ok?
    ensures FormatAll(results).Ok? ==>
      var out := FormatAll(results).value;
      && |out| == |KeptRecords(results)|
      && forall k :: 0 <= k < |out| ==> FormatRecord(KeptRecords(results)[k]) == Ok(Some(out[k]))
  {
    if results != [] {
      var init := results[..|results| - 1];
      var last := results[|results| - 1];
      FormatAllMeaning(init);
      assert forall i :: 0 <= i < |init| ==> init[i] == results[i];
      if FormatAll(results).Ok? {
        assert FormatRecord(last).Ok?;
      }
    }
  }

  /** Dropping: a record with a falsy `videoId` changes nothing. */
  lemma SkippedRecordChangesNothing(results: seq<Value>, r: Value)
    requires r.VDict? && !Truthy(Get(r, "videoId", VNone).value)
    ensures FormatAll(results + [r]) == FormatAll(results)
  {
    assert (results + [r])[..|results|] == results;
  }

  /** Formatting extends record by record: the tracks of a longer list
      start with the tracks of its prefix. */
  lemma {:induction false} FormatAllPrefix(results: seq<Value>, n: nat)
    requires n <= |results|
    requires FormatAll(results).Ok?
    ensures FormatAll(results[..n]).Ok?
    ensures FormatAll(results[..n]).value <= FormatAll(results).value
    decreases |results| - n
  {
    if n < |results| {
      var init := results[..|results| - 1];
      assert init[..n] == results[..n];
      FormatAllPrefix(init, n);
    } else {
      assert results[..n] == results;
    }
  }

  // ---------------------------------------------------------------------
  // backend/api/search.py

  /** The reply of the backend's search for a query, given the outcome of
      `ytmusic.search`: the placeholder for an id or URL, the formatted
      records otherwise, and [] when the search or the formatting raises. */
  function BackendReply(query: string, results: Outcome<Value>): seq<Track> {
    var videoId := VideoId.ExtractVideoId(query);
    if videoId.Some? then [DirectHit(query, videoId.value)]
    else if results.Raised? then []
    else
      match Iterate(results.value)
      case Raised => []
      case Ok(records) => if FormatAll(records).Ok? then FormatAll(records).value else []
  }

  /** The backend's `search_youtube_music`, with its append loop. */
  method SearchBackend(query: string, results: Outcome<Value>) returns (reply: seq<Track>)
    ensures reply == BackendReply(query, results)
  {
    var videoId := VideoId.ExtractVideoId(query);
    if videoId.Some? {
      return [DirectHit(query, videoId.value)];
    }
    if results.Raised? {
      return [];
    }
    var records := Iterate(results.value);
    if records.Raised? {
      return [];
    }
    var formatted := FormatRecords(records.value);
    reply := if formatted.Ok? then formatted.value else [];
  }

  /** The `for result in results` loop shared by both versions: append
      each kept record's track, stop with `Raised` when a step raises. */
  method FormatRecords(records: seq<Value>) returns (formatted: Outcome<seq<Track>>)
    ensures formatted == FormatAll(records)
  {
    var out: seq<Track> := [];
    var i := 0;
    while i < |records|
      invariant 0 <= i <= |records|
      invariant FormatAll(records[..i]) == Ok(out)
    {
      assert records[..i + 1][..i] == records[..i];
      var record := FormatRecord(records[i]);
      if record.Raised? {
        FormatAllRaisedStays(records, i + 1);
        return Raised;
      }
      if record.value.Some? {
        out := out + [record.value.value];
      }
      i := i + 1;
    }
    assert records[..i] == records;
    return Ok(out);
  }

  /** Once a prefix raises, every longer prefix raises too. */
  lemma {:induction false} FormatAllRaisedStays(records: seq<Value>, n: nat)
    requires 0 < n <= |records|
    requires FormatRecord(records[n - 1]).Raised?
    ensures FormatAll(records).Raised?
    decreases |records|
  {
    if n < |records| {
      var init := records[..|records| - 1];
      assert init[n - 1] == records[n - 1];
      FormatAllRaisedStays(init, n);
    }
  }

  /** A query that is itself an id returns exactly the placeholder, whatever
      the search service would have answered. */
  lemma DirectIdQuery(query: string, results: Outcome<Value>)
    requires VideoId.IsVideoId(query)
    ensures BackendReply(query, results) == [Track(VStr(query), VStr(query), VStr("Unknown"), VStr("?"))]
  {
  }

  // ---------------------------------------------------------------------
  // api/search.py

  /** What one attempt of the YouTube Music search returned, and, should it
      raise, whether the exception is classified as bot detection. */
  datatype Attempt = Attempt(results: Outcome<Value>, botDetected: bool)

  /** `max_retries` */
  const MaxRetries: nat := 2

  /** The formatted records of one attempt, or `Raised`. */
  function AttemptOutcome(a: Attempt): Outcome<seq<Track>> {
    if a.results.Raised? then Raised
    else
      match Iterate(a.results.value)
      case Raised => Raised
      case Ok(records) => FormatAll(records)
  }

  /** The retry loop from attempt `k` on: the first attempt that succeeds
      gives the reply; an exception not classified as bot detection gives
      []; bot detection retries, and on the last attempt falls back to the
      yt-dlp search. */
  function RetryReply(attempts: seq<Attempt>, k: nat, fallback: Outcome<Value>): seq<Track>
    requires |attempts| == MaxRetries && k < MaxRetries
    decreases MaxRetries - k
  {
    var o := AttemptOutcome(attempts[k]);
    if o.Ok? then o.value
    else if !attempts[k].botDetected then []
    else if k < MaxRetries - 1 then RetryReply(attempts, k + 1, fallback)
    else YtdlpReply(fallback)
  }

  /** The reply of the api's `search_youtube_music`, given the outcome of
      each attempt and of the fallback's `extract_info`. */
  function ApiReply(query: string, attempts: seq<Attempt>, fallback: Outcome<Value>): seq<Track>
    requires |attempts| == MaxRetries
  {
    var videoId := VideoId.ExtractVideoId(query);
    if videoId.Some? then [DirectHit(query, videoId.value)]
    else RetryReply(attempts, 0, fallback)
  }

  /** The `try` body of one attempt: search, then format the records;
      `Raised` when either raises. */
  method RunAttempt(a: Attempt) returns (outcome: Outcome<seq<Track>>)
    ensures outcome == AttemptOutcome(a)
  {
    if a.results.Raised? {
      return Raised;
    }
    var records := Iterate(a.results.value);
    if records.Raised? {
      return Raised;
    }
    outcome := FormatRecords(records.value);
  }

  /** The api's `search_youtube_music`: the direct-id short-circuit, then the
      retry loop around search and formatting. The sleeps between attempts
      and the reset of the client are not modelled. */
  method SearchApi(query: string, attempts: seq<Attempt>, fallback: Outcome<Value>) returns (reply: seq<Track>)
    requires |attempts| == MaxRetries
    ensures reply == ApiReply(query, attempts, fallback)
  {
    var videoId := VideoId.ExtractVideoId(query);
    if videoId.Some? {
      return [DirectHit(query, videoId.value)];
    }
    var attempt := 0;
    while attempt < MaxRetries
      invariant 0 <= attempt < MaxRetries
      invariant RetryReply(attempts, 0, fallback) == RetryReply(attempts, attempt, fallback)
      decreases MaxRetries - attempt
    {
      var outcome := RunAttempt(attempts[attempt]);
      if outcome.Ok? {
        return outcome.value;
      }
      if !attempts[attempt].botDetected {
        return [];
      }
      if attempt < MaxRetries - 1 {
        attempt := attempt + 1;
      } else {
        reply := SearchYtdlp(fallback);
        return;
      }
    }
  }

  /** A first attempt that succeeds is the reply; the fallback is never
      consulted. */
  lemma FirstAttemptWins(query: string, attempts: seq<Attempt>, fallback: Outcome<Value>)
    requires |attempts| == MaxRetries && VideoId.ExtractVideoId(query).None?
    requires AttemptOutcome(attempts[0]).Ok?
    ensures ApiReply(query, attempts, fallback) == AttemptOutcome(attempts[0]).value
  {
  }

  /** Bot detection on every attempt ends in the yt-dlp search; any other
      exception on the first attempt ends in []. */
  lemma RetryOutcomes(query: string, attempts: seq<Attempt>, fallback: Outcome<Value>)
    requires |attempts| == MaxRetries && VideoId.ExtractVideoId(query).None?
    ensures AttemptOutcome(attempts[0]).Raised? && !attempts[0].botDetected ==>
      ApiReply(query, attempts, fallback) == []
    ensures (&& AttemptOutcome(attempts[0]).Raised? && attempts[0].botDetected
             && AttemptOutcome(attempts[1]).Raised? && attempts[1].botDetected) ==>
      ApiReply(query, attempts, fallback) == YtdlpReply(fallback)
  {
  }

  // ---------------------------------------------------------------------
  // The yt-dlp fallback search of api/search.py

  /** One entry of the fallback: kept when truthy and holding `'id'`. */
  function FormatEntry(entry: Value): Outcome<Option<Track>> {
    if !Truthy(entry) then Ok(None)
    else
      match Contains(entry, "id")
      case Raised => Raised
      case Ok(has) =>
        if !has then Ok(None)
        else
          match Subscript(entry, "id")
          case Raised => Raised
          case Ok(id) =>
            match (Get(entry, "title", VStr("Unknown")), Get(entry, "uploader", VStr("Unknown Artist")),
                   Get(entry, "duration_string", VStr("?")))
            case (Ok(title), Ok(artist), Ok(duration)) => Ok(Some(Track(id, title, artist, duration)))
            case _ => Raised
  }

  /** The fallback's loop over the first entries. */
  function FormatEntries(entries: seq<Value>): Outcome<seq<Track>> {
    if entries == [] then Ok([])
    else
      var prev := FormatEntries(entries[..|entries| - 1]);
      if prev.Raised? then Raised
      else
        match FormatEntry(entries[|entries| - 1])
        case Raised => Raised
        case Ok(None) => prev
        case Ok(Some(t)) => Ok(prev.value + [t])
  }

  /** What one fallback entry gives. A falsy entry is skipped. A truthy
      dictionary is kept exactly when it holds `'id'`, as the track of that
      id with its `title`, `uploader` and `duration_string`, or "Unknown",
      "Unknown Artist" and "?" for those it lacks. Any other truthy value
      raises unless `'id' in entry` answers False. */
  lemma FormatEntryMeaning(entry: Value)
    ensures var r := FormatEntry(entry);
      && (!Truthy(entry) ==> r == Ok(None))
      && (r.Raised? <==> Truthy(entry) && !entry.VDict? && Contains(entry, "id") != Ok(false))
      && (Truthy(entry) && entry.VDict? ==> (r == Ok(None) <==> Lookup(entry.entries, "id").None?))
      && (Truthy(entry) && entry.VDict? && Lookup(entry.entries, "id").Some? ==>
            var e := entry.entries;
            r == Ok(Some(Track(Lookup(e, "id").value,
                               if Lookup(e, "title").Some? then Lookup(e, "title").value else VStr("Unknown"),
                               if Lookup(e, "uploader").Some? then Lookup(e, "uploader").value
                               else VStr("Unknown Artist"),
                               if Lookup(e, "duration_string").Some? then Lookup(e, "duration_string").value
                               else VStr("?")))))
  {
  }

  /** The entries that give a track. */
  predicate KeptEntry(entry: Value) {
    FormatEntry(entry).Ok? && FormatEntry(entry).value.Some?
  }

  /** The kept entries in their original order: each of them, and only
      them. */
  function KeptEntries(entries: seq<Value>): (r: seq<Value>)
    ensures |r| <= |entries|
    ensures forall x :: x in r ==> x in entries && KeptEntry(x)
    ensures forall i :: 0 <= i < |entries| && KeptEntry(entries[i]) ==> entries[i] in r
  {
    if entries == [] then []
    else
      var init := entries[..|entries| - 1];
      var prev := KeptEntries(init);
      var last := entries[|entries| - 1];
      assert forall i :: 0 <= i < |init| ==> init[i] == entries[i];
      if KeptEntry(last) then prev + [last] else prev
  }

  /** The fallback's loop succeeds exactly when no entry raises. */
  lemma {:induction false} FormatEntriesOkIff(entries: seq<Value>)
    ensures FormatEntries(entries).Ok? <==> forall i :: 0 <= i < |entries| ==> FormatEntry(entries[i]).Ok?
  {
    if entries != [] {
      var init := entries[..|entries| - 1];
      FormatEntriesOkIff(init);
      assert forall i :: 0 <= i < |init| ==> init[i] == entries[i];
      var t := FormatEntry(entries[|entries| - 1]);
      assert FormatEntries(entries).Ok? <==> FormatEntries(init).Ok? && t.Ok?;
    }
  }

  /** A successful fallback loop yields one track per kept entry, in
      order, each the track of that entry. */
  lemma {:induction false} FormatEntriesKept(entries: seq<Value>)
    requires FormatEntries(entries).Ok?
    ensures var out := FormatEntries(entries).value;
      && |out| == |KeptEntries(entries)|
      && forall k :: 0 <= k < |out| ==> FormatEntry(KeptEntries(entries)[k]) == Ok(Some(out[k]))
  {
    if entries != [] {
      var init := entries[..|entries| - 1];
      var last := entries[|entries| - 1];
      var prev := FormatEntries(init).value;
      FormatEntriesKept(init);
      var t := FormatEntry(last);
      if t.value.Some? {
        assert KeptEntries(entries) == KeptEntries(init) + [last];
        assert FormatEntries(entries) == Ok(prev + [t.value.value]);
      } else {
        assert KeptEntries(entries) == KeptEntries(init);
      }
    }
  }

  /** `search_youtube_music_ytdlp` given the outcome of `extract_info`: []
      for a failure, a falsy answer or one without `'entries'`, the kept
      entries otherwise. */
  function YtdlpReply(info: Outcome<Value>): seq<Track> {
    if info.Raised? || !Truthy(info.value) then []
    else
      match Contains(info.value, "entries")
      case Raised => []
      case Ok(has) =>
        if !has then []
        else
          match Get(info.value, "entries", VList([]))
          case Raised => []
          case Ok(entries) =>
            match Iterate(entries)
            case Raised => []
            case Ok(items) => if FormatEntries(items).Ok? then FormatEntries(items).value else []
  }

  /** The fallback's append loop. */
  method SearchYtdlp(info: Outcome<Value>) returns (reply: seq<Track>)
    ensures reply == YtdlpReply(info)
  {
    reply := [];
    if info.Raised? || !Truthy(info.value) {
      return;
    }
    var has := Contains(info.value, "entries");
    if has.Raised? || !has.value {
      return;
    }
    var entries := Get(info.value, "entries", VList([]));
    if entries.Raised? {
      return;
    }
    var items := Iterate(entries.value);
    if items.Raised? {
      return;
    }
    var formatted := FormatEntryList(items.value);
    reply := if formatted.Ok? then formatted.value else [];
  }

  /** The fallback's `for entry in ...` loop: append each kept entry's
      track, stop with `Raised` when a step raises. */
  method FormatEntryList(items: seq<Value>) returns (formatted: Outcome<seq<Track>>)
    ensures formatted == FormatEntries(items)
  {
    var out: seq<Track> := [];
    var i := 0;
    while i < |items|
      invariant 0 <= i <= |items|
      invariant FormatEntries(items[..i]) == Ok(out)
    {
      assert items[..i + 1][..i] == items[..i];
      var entry := FormatEntry(items[i]);
      if entry.Raised? {
        FormatEntriesRaisedStays(items, i + 1);
        return Raised;
      }
      if entry.value.Some? {
        out := out + [entry.value.value];
      }
      i := i + 1;
    }
    assert items[..i] == items;
    return Ok(out);
  }

  /** Once a prefix of the entries raises, every longer prefix raises. */
  lemma {:induction false} FormatEntriesRaisedStays(entries: seq<Value>, n: nat)
    requires 0 < n <= |entries|
    requires FormatEntry(entries[n - 1]).Raised?
    ensures FormatEntries(entries).Raised?
    decreases |entries|
  {
    if n < |entries| {
      var init := entries[..|entries| - 1];
      assert init[n - 1] == entries[n - 1];
      FormatEntriesRaisedStays(init, n);
    }
  }

  /** Every fallback track's id is copied from a truthy entry holding
      `'id'`, and there are never more tracks than entries. */
  lemma {:induction false} FallbackTracks(entries: seq<Value>)
    requires FormatEntries(entries).Ok?
    ensures |FormatEntries(entries).value| <= |entries|
    ensures forall t :: t in FormatEntries(entries).value ==>
      exists e :: e in entries && Truthy(e) && Contains(e, "id") == Ok(true) && Subscript(e, "id") == Ok(t.id)
  {
    if entries != [] {
      var init := entries[..|entries| - 1];
      var last := entries[|entries| - 1];
      FallbackTracks(init);
      forall t | t in FormatEntries(entries).value
        ensures exists e :: e in entries && Truthy(e) && Contains(e, "id") == Ok(true) && Subscript(e, "id") == Ok(t.id)
      {
        if t in FormatEntries(init).value {
          var e :| e in init && Truthy(e) && Contains(e, "id") == Ok(true) && Subscript(e, "id") == Ok(t.id);
          assert e in entries;
        } else {
          assert FormatEntry(last) == Ok(Some(t));
          assert last in entries;
        }
      }
    }
  }
}
