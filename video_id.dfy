/** `extract_video_id`, which appears in four textually identical copies
    (api/search.py, backend/api/search.py, api/process.py,
    backend/api/process.py). A query that is itself an 11-character id is
    returned unchanged; otherwise two URL patterns are searched, in a fixed
    order, each for its leftmost match, and the 11 id characters after the
    matched prefix are returned. No match gives None. */
module VideoId {
  import opened PyValue

  /** The character class `[a-zA-Z0-9_-]`. */
  predicate IsIdChar(c: char) {
    ('a' <= c <= 'z') || ('A' <= c <= 'Z') || ('0' <= c <= '9') || c == '_' || c == '-'
  }

  /** `^[a-zA-Z0-9_-]{11}$` together with the length test. */
  predicate IsVideoId(s: string) {
    |s| == 11 && forall i :: 0 <= i < |s| ==> IsIdChar(s[i])
  }

  const WatchPrefix: string := "youtube.com/watch?v="
  const ShortPrefix: string := "youtu.be/"
  const EmbedPrefix: string := "youtube.com/embed/"

  /** The two patterns, each a list of alternative literal prefixes that
      must be followed by 11 id characters:
      `(?:youtube\.com\/watch\?v=|youtu\.be\/)([a-zA-Z0-9_-]{11})` and
      `youtube\.com\/embed\/([a-zA-Z0-9_-]{11})`. */
  const Patterns: seq<seq<string>> := [[WatchPrefix, ShortPrefix], [EmbedPrefix]]

  /** Does `prefix` followed by 11 id characters start at position i? */
  predicate MatchesAt(q: string, i: nat, prefix: string) {
    i + |prefix| + 11 <= |q| && q[i..i + |prefix|] == prefix && IsVideoId(q[i + |prefix|..i + |prefix| + 11])
  }

  /** Does one of the alternatives match at position i? */
  predicate PatternAt(q: string, i: nat, alts: seq<string>) {
    exists a :: 0 <= a < |alts| && MatchesAt(q, i, alts[a])
  }

  /** The captured group when the alternatives are tried in order at
      position i: the 11 characters after the first alternative that
      matches. */
  function GroupAt(q: string, i: nat, alts: seq<string>): (r: Option<string>)
    ensures r.Some? ==> IsVideoId(r.value)
    decreases |alts|
  {
    if alts == [] then None
    else if MatchesAt(q, i, alts[0]) then Some(q[i + |alts[0]|..i + |alts[0]| + 11])
    else GroupAt(q, i, alts[1..])
  }

  /** There is a group exactly when one of the alternatives matches. */
  lemma {:induction false} GroupAtIff(q: string, i: nat, alts: seq<string>)
    ensures GroupAt(q, i, alts).Some? <==> PatternAt(q, i, alts)
    decreases |alts|
  {
    if alts == [] {
    } else if MatchesAt(q, i, alts[0]) {
      assert PatternAt(q, i, alts);
    } else {
      var tail := alts[1..];
      GroupAtIff(q, i, tail);
      if PatternAt(q, i, alts) {
        var a :| 0 <= a < |alts| && MatchesAt(q, i, alts[a]);
        assert tail[a - 1] == alts[a];
        assert PatternAt(q, i, tail);
      }
      if PatternAt(q, i, tail) {
        var a :| 0 <= a < |tail| && MatchesAt(q, i, tail[a]);
        assert alts[a + 1] == tail[a];
      }
    }
  }

  /** The group is the 11 characters after an alternative that matches. */
  lemma {:induction false} GroupAtValue(q: string, i: nat, alts: seq<string>)
    requires GroupAt(q, i, alts).Some?
    ensures exists a :: 0 <= a < |alts| && MatchesAt(q, i, alts[a])
                        && GroupAt(q, i, alts).value == q[i + |alts[a]|..i + |alts[a]| + 11]
    decreases |alts|
  {
    if !MatchesAt(q, i, alts[0]) {
      var tail := alts[1..];
      GroupAtValue(q, i, tail);
      var a :| 0 <= a < |tail| && MatchesAt(q, i, tail[a])
               && GroupAt(q, i, tail).value == q[i + |tail[a]|..i + |tail[a]| + 11];
      assert alts[a + 1] == tail[a];
    }
  }

  /** `re.search(pattern, q)` from position `from` on: the group of the
      leftmost position where the pattern matches. */
  function Search(q: string, alts: seq<string>, from: nat): (r: Option<string>)
    ensures r.Some? ==> IsVideoId(r.value)
    decreases |q| + 1 - from
  {
    if from > |q| then None
    else
      var g := GroupAt(q, from, alts);
      if g.Some? then g else Search(q, alts, from + 1)
  }

  /** The search answers with the group at the leftmost matching position,
      and answers None exactly when no position matches. */
  lemma {:induction false} SearchMeaning(q: string, alts: seq<string>, from: nat)
    ensures var r := Search(q, alts, from);
      r.Some? ==> exists i :: from <= i <= |q| && GroupAt(q, i, alts) == r
                              && forall j :: from <= j < i ==> !PatternAt(q, j, alts)
    ensures Search(q, alts, from).None? <==> forall i :: from <= i <= |q| ==> !PatternAt(q, i, alts)
    decreases |q| + 1 - from
  {
    if from > |q| {
    } else if GroupAt(q, from, alts).Some? {
      GroupAtIff(q, from, alts);
    } else {
      GroupAtIff(q, from, alts);
      SearchMeaning(q, alts, from + 1);
      var r := Search(q, alts, from + 1);
      if r.Some? {
        var i :| from + 1 <= i <= |q| && GroupAt(q, i, alts) == r
                 && forall j :: from + 1 <= j < i ==> !PatternAt(q, j, alts);
        assert forall j :: from <= j < i ==> !PatternAt(q, j, alts);
      }
    }
  }

  /** `for pattern in patterns: match = re.search(...); if match: return`. */
  function SearchPatterns(q: string, pats: seq<seq<string>>): (r: Option<string>)
    ensures r.Some? ==> IsVideoId(r.value)
    decreases |pats|
  {
    if pats == [] then None
    else
      var m := Search(q, pats[0], 0);
      if m.Some? then m else SearchPatterns(q, pats[1..])
  }

  /** `extract_video_id(query)`. */
  function ExtractVideoId(q: string): (r: Option<string>)
    ensures IsVideoId(q) ==> r == Some(q)
    ensures r.Some? ==> IsVideoId(r.value)
  {
    if |q| == 11 && IsVideoId(q) then Some(q)
    else SearchPatterns(q, Patterns)
  }

  /** A pattern matches somewhere in the query. */
  predicate PatternSomewhere(q: string, alts: seq<string>) {
    exists i :: 0 <= i <= |q| && PatternAt(q, i, alts)
  }

  /** The whole contract of extract_video_id for a query that is not an id
      itself: the watch/short-link pattern wins wherever the embed pattern
      occurs, each pattern gives its leftmost match, and None means neither
      pattern occurs. */
  lemma ExtractFromUrl(q: string)
    requires !IsVideoId(q)
    ensures PatternSomewhere(q, Patterns[0]) ==> ExtractVideoId(q) == Search(q, Patterns[0], 0)
    ensures !PatternSomewhere(q, Patterns[0]) ==> ExtractVideoId(q) == Search(q, Patterns[1], 0)
    ensures ExtractVideoId(q).None? <==> !PatternSomewhere(q, Patterns[0]) && !PatternSomewhere(q, Patterns[1])
  {
    var p0 := Patterns[0];
    var p1 := Patterns[1];
    SearchMeaning(q, p0, 0);
    SearchMeaning(q, p1, 0);
    assert Patterns[1..] == [p1];
    assert Patterns[1..][1..] == [];
    if PatternSomewhere(q, p0) {
      var i :| 0 <= i <= |q| && PatternAt(q, i, p0);
      assert Search(q, p0, 0).Some?;
    } else {
      assert Search(q, p0, 0).None?;
      assert ExtractVideoId(q) == SearchPatterns(q, Patterns[1..]);
      assert SearchPatterns(q, Patterns[1..][1..]) == None;
      if PatternSomewhere(q, p1) {
        var i :| 0 <= i <= |q| && PatternAt(q, i, p1);
        assert Search(q, p1, 0).Some?;
      }
    }
  }

  /** A match of an alternative begins with the alternative's first character. */
  lemma MatchStartsWithPrefix(q: string, i: nat, prefix: string)
    requires prefix != [] && MatchesAt(q, i, prefix)
    ensures q[i] == prefix[0]
  {
    assert q[i..i + |prefix|][0] == q[i];
  }

  /** An example query in which an embed URL precedes a watch URL:
      "youtube.com/embed/AAAAAAAAAAA youtube.com/watch?v=BBBBBBBBBBB". */
  const ExampleQuery: string := EmbedPrefix + Filler + WatchPrefix + "BBBBBBBBBBB"
  const Filler: string := "AAAAAAAAAAA "

  /** The example query does not start with a watch or short-link URL. */
  lemma ExampleNoWatchAtStart()
    ensures !MatchesAt(ExampleQuery, 0, WatchPrefix) && !MatchesAt(ExampleQuery, 0, ShortPrefix)
  {
    var q := ExampleQuery;
    assert q[12] == EmbedPrefix[12] == 'e';
    assert q[5] == EmbedPrefix[5] == 'b';
  }

  /** No position before 30 of the example query starts a watch or
      short-link URL: no character after the first one before position 30
      is a 'y'. */
  lemma ExampleHasNoEarlyWatch(j: nat)
    requires j < 30
    ensures !PatternAt(ExampleQuery, j, Patterns[0])
  {
    var q := ExampleQuery;
    assert Patterns[0] == [WatchPrefix, ShortPrefix];
    if j == 0 {
      ExampleNoWatchAtStart();
    } else {
      ExampleHasNoLaterY(j);
      if PatternAt(q, j, Patterns[0]) {
        var a :| 0 <= a < 2 && MatchesAt(q, j, Patterns[0][a]);
        MatchStartsWithPrefix(q, j, Patterns[0][a]);
        assert false;
      }
    }
  }

  /** The only 'y' among the first 30 characters of the example query is
      its first character. */
  lemma ExampleHasNoLaterY(j: nat)
    requires 1 <= j < 30
    ensures ExampleQuery[j] != 'y'
  {
    var q := ExampleQuery;
    assert q[..18] == EmbedPrefix && q[18..30] == Filler;
    if j < 18 {
      assert q[j] == EmbedPrefix[j];
    } else {
      assert q[j] == Filler[j - 18];
    }
  }

  /** The example query matches the watch pattern at position 30. */
  lemma ExampleWatchAt30()
    ensures GroupAt(ExampleQuery, 30, Patterns[0]) == Some("BBBBBBBBBBB")
  {
    var q := ExampleQuery;
    assert q[30..50] == WatchPrefix;
    assert q[50..61] == "BBBBBBBBBBB";
    assert IsVideoId("BBBBBBBBBBB") by {
      forall k | 0 <= k < 11 ensures IsIdChar("BBBBBBBBBBB"[k]) {
        assert "BBBBBBBBBBB"[k] == 'B';
      }
    }
    assert MatchesAt(q, 30, Patterns[0][0]);
  }

  /** A search that reaches position k without a match answers with the
      group at k when there is one. */
  lemma {:induction false} SearchFindsFirst(q: string, alts: seq<string>, from: nat, k: nat)
    requires from <= k <= |q| && GroupAt(q, k, alts).Some?
    requires forall j :: from <= j < k ==> !PatternAt(q, j, alts)
    ensures Search(q, alts, from) == GroupAt(q, k, alts)
    decreases k - from
  {
    if from < k {
      GroupAtIff(q, from, alts);
      SearchFindsFirst(q, alts, from + 1, k);
    }
  }

  /** For the example query, where the embed URL comes first, the id of the
      watch URL after it is the one returned. */
  lemma WatchBeatsEarlierEmbed()
    ensures ExtractVideoId(ExampleQuery) == Some("BBBBBBBBBBB")
  {
    var q := ExampleQuery;
    var p0 := Patterns[0];
    assert |q| == 61;
    ExampleWatchAt30();
    GroupAtIff(q, 30, p0);
    assert PatternSomewhere(q, p0);
    forall j | 0 <= j < 30 ensures !PatternAt(q, j, p0) {
      ExampleHasNoEarlyWatch(j);
    }
    SearchFindsFirst(q, p0, 0, 30);
    ExtractFromUrl(q);
  }
}
