/** `get_lyrics` of api/lyrics.py: the song information from YouTube Music
    is turned into a list of `{time, text}` lines. Plain-text lyrics are
    split into lines, blank lines are dropped and the kept lines are placed
    three seconds apart; lyrics given as a list of dictionaries, or as a
    dictionary holding such a list under `'lines'`, keep the items with a
    truthy text. A computed list is cached as a JSON file per video; an
    early `[]` (no lyrics) and an exception are not cached.

    `get_song` is a parameter (its outcome), and so are the two Python
    conversions the code applies to item fields: `float()` of a string and
    `str()` of a value that is not a string. */
module Lyrics {
  import opened PyValue
  import Text

  /** One output line `{"time": float, "text": str}`. */
  datatype LyricLine = LyricLine(time: real, text: string)

  /** `time_per_line` */
  const TimePerLine: real := 3.0

  // ---------------------------------------------------------------------
  // Plain-text lyrics

  /** The stripped non-blank lines, in order. */
  function KeptLines(lines: seq<string>): (r: seq<string>)
    ensures |r| <= |lines|
  {
    if lines == [] then []
    else
      var prev := KeptLines(lines[..|lines| - 1]);
      var line := Text.Strip(lines[|lines| - 1]);
      if line != [] then prev + [line] else prev
  }

  /** The k-th kept line at time 3.0 * k. */
  function Timed(texts: seq<string>): (r: seq<LyricLine>)
    ensures |r| == |texts|
  {
    seq(|texts|, k requires 0 <= k < |texts| => LyricLine(TimePerLine * k as real, texts[k]))
  }

  /** The lines produced for plain-text lyrics. */
  function TextLyrics(text: string): seq<LyricLine> {
    Timed(KeptLines(Text.Split(text, '\n')))
  }

  /** The loop over `lyrics_data.split('\n')`: strip each line, and for a
      non-blank one append it at `current_time` and advance the time. */
  method FormatText(text: string) returns (out: seq<LyricLine>)
    ensures out == TextLyrics(text)
    ensures forall k :: 0 <= k < |out| ==> out[k].time == 3.0 * k as real && out[k].text != []
  {
    var lines := Text.Split(text, '\n');
    out := [];
    var currentTime := 0.0;
    var i := 0;
    while i < |lines|
      invariant 0 <= i <= |lines|
      invariant out == Timed(KeptLines(lines[..i]))
      invariant currentTime == TimePerLine * |out| as real
    {
      assert lines[..i + 1][..i] == lines[..i];
      var line := Text.Strip(lines[i]);
      if line != [] {
        out := out + [LyricLine(currentTime, line)];
        currentTime := currentTime + TimePerLine;
      }
      i := i + 1;
    }
    assert lines[..i] == lines;
    KeptLinesNonBlank(lines);
    forall k | 0 <= k < |out| ensures out[k].text != [] {
      assert out[k].text in KeptLines(lines);
    }
  }

  /** Every kept line is the stripped form of one of the lines: non-empty
      and without surrounding white space. */
  lemma {:induction false} KeptLinesNonBlank(lines: seq<string>)
    ensures forall t :: t in KeptLines(lines) ==>
      && t != [] && !Text.IsSpace(t[0]) && !Text.IsSpace(t[|t| - 1])
      && exists line :: line in lines && t == Text.Strip(line)
  {
    if lines != [] {
      var init := lines[..|lines| - 1];
      var last := lines[|lines| - 1];
      KeptLinesNonBlank(init);
      forall t | t in KeptLines(lines)
        ensures && t != [] && !Text.IsSpace(t[0]) && !Text.IsSpace(t[|t| - 1])
                && exists line :: line in lines && t == Text.Strip(line)
      {
        if t in KeptLines(init) {
          var line :| line in init && t == Text.Strip(line);
          assert line in lines;
        } else {
          assert t == Text.Strip(last);
          Text.StripMeaning(last);
          assert last in lines;
        }
      }
    }
  }

  /** Keeping lines distributes over concatenation, so the time of a line
      depends only on the non-blank lines before it. */
  lemma {:induction false} KeptLinesAppend(a: seq<string>, b: seq<string>)
    ensures KeptLines(a + b) == KeptLines(a) + KeptLines(b)
    decreases |b|
  {
    if b == [] {
      assert a + b == a;
    } else {
      var b0 := b[..|b| - 1];
      var line := Text.Strip(b[|b| - 1]);
      KeptLinesAppend(a, b0);
      assert (a + b)[..|a + b| - 1] == a + b0;
      assert (a + b)[|a + b| - 1] == b[|b| - 1];
      var tail := if line != [] then [line] else [];
      assert KeptLines(b) == KeptLines(b0) + tail;
      assert KeptLines(a + b) == KeptLines(a + b0) + tail;
      assert KeptLines(a) + KeptLines(b0) + tail == KeptLines(a) + (KeptLines(b0) + tail);
    }
  }

  /** A blank line does not advance the time of the lines after it. */
  lemma BlankLineAdvancesNothing(a: seq<string>, blank: string, b: seq<string>)
    requires forall i :: 0 <= i < |blank| ==> Text.IsSpace(blank[i])
    ensures KeptLines(a + [blank] + b) == KeptLines(a + b)
  {
    Text.StripMeaning(blank);
    KeptLinesAppend(a + [blank], b);
    KeptLinesAppend(a, [blank]);
    KeptLinesAppend(a, b);
    assert ([blank])[..0] == [];
  }

  /** A non-blank line is kept, stripped, and lands right after the lines
      kept before it. */
  lemma NonBlankLineIsKept(a: seq<string>, line: string)
    requires Text.Strip(line) != []
    ensures KeptLines(a + [line]) == KeptLines(a) + [Text.Strip(line)]
  {
    assert (a + [line])[..|a|] == a;
  }

  // ---------------------------------------------------------------------
  // Lyrics given as items

  /** One item of a list of lines: a dictionary with a truthy `'text'`
      gives a line, with `float(time)` (default 0) and `str(text)`; any
      other item is skipped; `float()` may raise. */
  function ItemLine(item: Value, parse: string -> Option<real>, show: Value -> string): (r: Outcome<Option<LyricLine>>)
    ensures !item.VDict? ==> r == Ok(None)
    ensures item.VDict? && !Truthy(Get(item, "text", VStr("")).value) ==> r == Ok(None)
    ensures r.Ok? && r.value.Some? ==>
      && item.VDict? && Truthy(Get(item, "text", VStr("")).value)
      && r.value.value.text == ToStr(Get(item, "text", VStr("")).value, show)
      && ToFloat(Get(item, "time", VInt(0)).value, parse) == Ok(r.value.value.time)
    ensures item.VDict? && Lookup(item.entries, "time").None? && Truthy(Get(item, "text", VStr("")).value) ==>
      r.Ok? && r.value.Some? && r.value.value.time == 0.0
  {
    if !item.VDict? then Ok(None)
    else
      var time := Get(item, "time", VInt(0)).value;
      var text := Get(item, "text", VStr("")).value;
      if !Truthy(text) then Ok(None)
      else
        match ToFloat(time, parse)
        case Raised => Raised
        case Ok(t) => Ok(Some(LyricLine(t, ToStr(text, show))))
  }

  /** The lines gathered from the first items, or `Raised`. */
  function ItemLines(items: seq<Value>, parse: string -> Option<real>, show: Value -> string): Outcome<seq<LyricLine>> {
    if items == [] then Ok([])
    else
      var prev := ItemLines(items[..|items| - 1], parse, show);
      if prev.Raised? then Raised
      else
        match ItemLine(items[|items| - 1], parse, show)
        case Raised => Raised
        case Ok(None) => prev
        case Ok(Some(line)) => Ok(prev.value + [line])
  }

  /** The output is never longer than the items, and every line comes from
      a dictionary item with a truthy text. */
  lemma {:induction false} ItemLinesFromItems(items: seq<Value>, parse: string -> Option<real>, show: Value -> string)
    requires ItemLines(items, parse, show).Ok?
    ensures |ItemLines(items, parse, show).value| <= |items|
    ensures forall line :: line in ItemLines(items, parse, show).value ==>
      exists item :: item in items && item.VDict? && ItemLine(item, parse, show) == Ok(Some(line))
  {
    if items != [] {
      var init := items[..|items| - 1];
      var last := items[|items| - 1];
      ItemLinesFromItems(init, parse, show);
      forall line | line in ItemLines(items, parse, show).value
        ensures exists item :: item in items && item.VDict? && ItemLine(item, parse, show) == Ok(Some(line))
      {
        if line in ItemLines(init, parse, show).value {
          var item :| item in init && item.VDict? && ItemLine(item, parse, show) == Ok(Some(line));
          assert item in items;
        } else {
          assert ItemLine(last, parse, show) == Ok(Some(line));
          assert last in items;
        }
      }
    }
  }

  /** Once an item raises, every longer prefix raises. */
  lemma {:induction false} ItemLinesRaisedStays(items: seq<Value>, n: nat, parse: string -> Option<real>, show: Value -> string)
    requires 0 < n <= |items|
    requires ItemLine(items[n - 1], parse, show).Raised?
    ensures ItemLines(items, parse, show).Raised?
    decreases |items|
  {
    if n < |items| {
      var init := items[..|items| - 1];
      assert init[n - 1] == items[n - 1];
      ItemLinesRaisedStays(init, n, parse, show);
    }
  }

  /** The items that give a line. */
  predicate LineItem(item: Value, parse: string -> Option<real>, show: Value -> string) {
    ItemLine(item, parse, show).Ok? && ItemLine(item, parse, show).value.Some?
  }

  /** The items that give a line, in their original order: each of them,
      and only them. */
  function LineItems(items: seq<Value>, parse: string -> Option<real>, show: Value -> string): (r: seq<Value>)
    ensures |r| <= |items|
    ensures forall x :: x in r ==> x in items && LineItem(x, parse, show)
    ensures forall i :: 0 <= i < |items| && LineItem(items[i], parse, show) ==> items[i] in r
  {
    if items == [] then []
    else
      var init := items[..|items| - 1];
      var prev := LineItems(init, parse, show);
      var last := items[|items| - 1];
      assert forall i :: 0 <= i < |init| ==> init[i] == items[i];
      if LineItem(last, parse, show) then prev + [last] else prev
  }

  /** Formatting the items succeeds exactly when no item raises. */
  lemma {:induction false} ItemLinesOkIff(items: seq<Value>, parse: string -> Option<real>, show: Value -> string)
    ensures ItemLines(items, parse, show).Ok? <==> forall i :: 0 <= i < |items| ==> ItemLine(items[i], parse, show).Ok?
  {
    if items != [] {
      var init := items[..|items| - 1];
      ItemLinesOkIff(init, parse, show);
      assert forall i :: 0 <= i < |init| ==> init[i] == items[i];
      var line := ItemLine(items[|items| - 1], parse, show);
      assert ItemLines(items, parse, show).Ok? <==> ItemLines(init, parse, show).Ok? && line.Ok?;
    }
  }

  /** A successful formatting yields one line per line-giving item, in
      order, each the line of that item; and every dictionary item with a
      truthy text is one of them. */
  lemma {:induction false} ItemLinesKept(items: seq<Value>, parse: string -> Option<real>, show: Value -> string)
    requires ItemLines(items, parse, show).Ok?
    ensures var out := ItemLines(items, parse, show).value;
      && |out| == |LineItems(items, parse, show)|
      && forall k :: 0 <= k < |out| ==> ItemLine(LineItems(items, parse, show)[k], parse, show) == Ok(Some(out[k]))
    ensures forall i :: 0 <= i < |items| && items[i].VDict? && Truthy(Get(items[i], "text", VStr("")).value) ==>
      items[i] in LineItems(items, parse, show)
  {
    ItemLinesOkIff(items, parse, show);
    if items != [] {
      var init := items[..|items| - 1];
      var last := items[|items| - 1];
      var prev := ItemLines(init, parse, show).value;
      ItemLinesKept(init, parse, show);
      var line := ItemLine(last, parse, show);
      if line.value.Some? {
        assert LineItems(items, parse, show) == LineItems(init, parse, show) + [last];
        assert ItemLines(items, parse, show) == Ok(prev + [line.value.value]);
      } else {
        assert LineItems(items, parse, show) == LineItems(init, parse, show);
      }
    }
  }

  /** The loop over a list of items (the list case and the `'lines'` of
      the dictionary case run the same body). */
  method FormatItems(items: seq<Value>, parse: string -> Option<real>, show: Value -> string)
    returns (formatted: Outcome<seq<LyricLine>>)
    ensures formatted == ItemLines(items, parse, show)
  {
    var out: seq<LyricLine> := [];
    var i := 0;
    while i < |items|
      invariant 0 <= i <= |items|
      invariant ItemLines(items[..i], parse, show) == Ok(out)
    {
      assert items[..i + 1][..i] == items[..i];
      var line := ItemLine(items[i], parse, show);
      if line.Raised? {
        ItemLinesRaisedStays(items, i + 1, parse, show);
        return Raised;
      }
      if line.value.Some? {
        out := out + [line.value.value];
      }
      i := i + 1;
    }
    assert items[..i] == items;
    return Ok(out);
  }

  // ---------------------------------------------------------------------
  // get_lyrics

  /** The formatted items, or None when formatting one of them raises (the
      exception is caught and nothing is cached). */
  function FromItems(items: seq<Value>, parse: string -> Option<real>, show: Value -> string): Option<seq<LyricLine>> {
    var r := ItemLines(items, parse, show);
    if r.Ok? then Some(r.value) else None
  }

  /** The branches on the type of a truthy `lyrics_data`: a string is split
      into lines, a list is formatted item by item, a dictionary's `'lines'`
      are formatted as a list (the empty list without them), and anything
      else gives the empty list. */
  function FromData(data: Value, parse: string -> Option<real>, show: Value -> string): Option<seq<LyricLine>> {
    match data
    case VStr(text) => Some(TextLyrics(text))
    case VList(items) => FromItems(items, parse, show)
    case VDict(entries) =>
      var lines := Lookup(entries, "lines");
      if lines.None? then Some([])
      else
        (match Iterate(lines.value)
         case Raised => None
         case Ok(items) => FromItems(items, parse, show))
    case _ => Some([])
  }

  /** What the code computes from the outcome of `get_song`: None when it
      returns `[]` early or an exception is caught (nothing is cached), the
      formatted lines otherwise (these are cached). */
  function Fetched(songInfo: Outcome<Value>, parse: string -> Option<real>, show: Value -> string)
    : Option<seq<LyricLine>>
  {
    if songInfo.Raised? || !Truthy(songInfo.value) then None
    else
      var info := songInfo.value;
      match Contains(info, "lyrics")
      case Raised => None
      case Ok(has) =>
        if !has then None
        else
          match Subscript(info, "lyrics")
          case Raised => None
          case Ok(data) =>
            if !Truthy(data) then None
            else FromData(data, parse, show)
  }

  /** Missing or falsy lyrics give `[]` and nothing is cached. */
  lemma NoLyricsNoCache(songInfo: Outcome<Value>, parse: string -> Option<real>, show: Value -> string)
    requires songInfo.Ok? && songInfo.value.VDict?
    requires Lookup(songInfo.value.entries, "lyrics").None? || !Truthy(Lookup(songInfo.value.entries, "lyrics").value)
    ensures Fetched(songInfo, parse, show).None?
  {
  }

  /** Truthy lyrics under `'lyrics'` are handled by type. */
  lemma FetchedByData(info: seq<(string, Value)>, data: Value,
                      parse: string -> Option<real>, show: Value -> string)
    requires Lookup(info, "lyrics") == Some(data) && Truthy(data)
    ensures Fetched(Ok(VDict(info)), parse, show) == FromData(data, parse, show)
  {
    assert info != [];
  }

  /** Dictionary lyrics without `'lines'` give the empty list, which is
      cached. */
  lemma DictWithoutLines(info: seq<(string, Value)>, entries: seq<(string, Value)>,
                         parse: string -> Option<real>, show: Value -> string)
    requires Lookup(info, "lyrics") == Some(VDict(entries)) && entries != []
    requires Lookup(entries, "lines").None?
    ensures Fetched(Ok(VDict(info)), parse, show) == Some([])
  {
    FetchedByData(info, VDict(entries), parse, show);
  }

  /** Dictionary lyrics consult only `'lines'`: the result is that of the
      same items given as a list. */
  lemma DictLyricsUseLines(info: seq<(string, Value)>, entries: seq<(string, Value)>, items: seq<Value>,
                           parse: string -> Option<real>, show: Value -> string)
    requires Lookup(info, "lyrics") == Some(VDict(entries)) && entries != []
    requires Lookup(entries, "lines") == Some(VList(items)) && items != []
    ensures Fetched(Ok(VDict(info)), parse, show) == Fetched(Ok(VDict([("lyrics", VList(items))])), parse, show)
  {
    FetchedByData(info, VDict(entries), parse, show);
    FetchedByData([("lyrics", VList(items))], VList(items), parse, show);
  }

  /** The output is never longer than the lines or items it comes from;
      a dictionary without `'lines'` gives no line. */
  lemma FetchedNeverLonger(info: seq<(string, Value)>, parse: string -> Option<real>, show: Value -> string)
    requires info != [] && Fetched(Ok(VDict(info)), parse, show).Some?
    ensures Lookup(info, "lyrics").Some?
    ensures var data := Lookup(info, "lyrics").value;
      && (data.VStr? ==> |Fetched(Ok(VDict(info)), parse, show).value| <= |Text.Split(data.s, '\n')|)
      && (data.VList? ==> |Fetched(Ok(VDict(info)), parse, show).value| <= |data.items|)
      && (data.VDict? && Lookup(data.entries, "lines").Some? && Iterate(Lookup(data.entries, "lines").value).Ok? ==>
            |Fetched(Ok(VDict(info)), parse, show).value| <= |Iterate(Lookup(data.entries, "lines").value).value|)
      && (data.VDict? && Lookup(data.entries, "lines").None? ==> Fetched(Ok(VDict(info)), parse, show).value == [])
  {
    var data := Lookup(info, "lyrics").value;
    FetchedByData(info, data, parse, show);
    if data.VList? {
      ItemLinesFromItems(data.items, parse, show);
    } else if data.VDict? && Lookup(data.entries, "lines").Some? && Iterate(Lookup(data.entries, "lines").value).Ok? {
      ItemLinesFromItems(Iterate(Lookup(data.entries, "lines").value).value, parse, show);
    }
  }

  const LyricsCacheDir: string := "cache/lyrics"

  /** `os.path.join(LYRICS_CACHE_DIR, f"{video_id}.json")` */
  function LyricsCachePath(videoId: string): string {
    LyricsCacheDir + "/" + videoId + ".json"
  }

  /** The lyrics cache directory: a map from path to the lines stored there
      (the JSON file round-trips the lines unchanged). */
  class LyricsStore {
    var files: map<string, seq<LyricLine>>

    constructor(initial: map<string, seq<LyricLine>>)
      ensures files == initial
    {
      files := initial;
    }

    /** `get_lyrics(video_id)`: a cached list is returned as stored;
        otherwise the song information is fetched and formatted, and a
        computed list is cached before it is returned. */
    method GetLyrics(videoId: string, songInfo: Outcome<Value>, parse: string -> Option<real>, show: Value -> string)
      returns (lines: seq<LyricLine>)
      modifies this
      ensures LyricsCachePath(videoId) in old(files) ==>
        lines == old(files)[LyricsCachePath(videoId)] && files == old(files)
      ensures LyricsCachePath(videoId) !in old(files) ==>
        match Fetched(songInfo, parse, show)
        case None => lines == [] && files == old(files)
        case Some(computed) => lines == computed && files == old(files)[LyricsCachePath(videoId) := computed]
    {
      var path := LyricsCachePath(videoId);
      if path in files {
        return files[path];
      }
      var fetched := Fetch(songInfo, parse, show);
      if fetched.None? {
        return [];
      }
      files := files[path := fetched.value];
      lines := fetched.value;
    }
  }

  /** The body of the `try`: the checks on the song information and the
      three format branches. */
  method Fetch(songInfo: Outcome<Value>, parse: string -> Option<real>, show: Value -> string)
    returns (formatted: Option<seq<LyricLine>>)
    ensures formatted == Fetched(songInfo, parse, show)
  {
    if songInfo.Raised? || !Truthy(songInfo.value) {
      return None;
    }
    var has := Contains(songInfo.value, "lyrics");
    if has.Raised? || !has.value {
      return None;
    }
    var data := Subscript(songInfo.value, "lyrics");
    if data.Raised? || !Truthy(data.value) {
      return None;
    }
    match data.value {
      case VStr(text) =>
        var lines := FormatText(text);
        return Some(lines);
      case VList(items) =>
        var r := FormatItems(items, parse, show);
        return if r.Ok? then Some(r.value) else None;
      case VDict(entries) =>
        var lines := Lookup(entries, "lines");
        if lines.None? {
          return Some([]);
        }
        var items := Iterate(lines.value);
        if items.Raised? {
          return None;
        }
        var r := FormatItems(items.value, parse, show);
        return if r.Ok? then Some(r.value) else None;
      case _ =>
        return Some([]);
    }
  }
}
