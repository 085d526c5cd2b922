/** String operations of Python's `str` that the backend relies on:
    `split` on a one-character separator, `join`, `strip`, `replace`
    and substring search (`in`). */
module Text {

  /** `s.split(sep)` for a one-character separator: the pieces between the
      separators, an empty piece wherever two separators meet. */
  function Split(s: string, sep: char): (parts: seq<string>)
    ensures |parts| >= 1
    ensures forall i :: 0 <= i < |parts| ==> sep !in parts[i]
    decreases |s|
  {
    if s == [] then [[]]
    else
      var rest := Split(s[1..], sep);
      if s[0] == sep then [[]] + rest
      else [[s[0]] + rest[0]] + rest[1..]
  }

  /** `sep.join(parts)` for a one-character separator. */
  function Join(parts: seq<string>, sep: char): string
    decreases |parts|
  {
    if parts == [] then []
    else if |parts| == 1 then parts[0]
    else parts[0] + [sep] + Join(parts[1..], sep)
  }

  /** Splitting and joining again on the same separator gives back the string. */
  lemma {:induction false} JoinSplit(s: string, sep: char)
    ensures Join(Split(s, sep), sep) == s
    decreases |s|
  {
    if s != [] {
      JoinSplit(s[1..], sep);
      var rest := Split(s[1..], sep);
      if s[0] == sep {
        assert Split(s, sep) == [[]] + rest;
      } else {
        assert Split(s, sep) == [[s[0]] + rest[0]] + rest[1..];
        if |rest| > 1 {
          assert rest == [rest[0]] + rest[1..];
          assert Join(rest, sep) == rest[0] + [sep] + Join(rest[1..], sep);
        }
      }
    }
  }

  lemma {:induction false} SplitNoSep(s: string, sep: char)
    requires sep !in s
    ensures Split(s, sep) == [s]
    decreases |s|
  {
    if s != [] {
      assert s[0] in s;
      SplitNoSep(s[1..], sep);
      assert [s[0]] + s[1..] == s;
    }
  }

  lemma {:induction false} SplitAppend(a: string, rest: string, sep: char)
    requires sep !in a
    ensures Split(a + [sep] + rest, sep) == [a] + Split(rest, sep)
    decreases |a|
  {
    if a == [] {
      assert [] + [sep] + rest == [sep] + rest;
      assert ([sep] + rest)[1..] == rest;
    } else {
      assert (a + [sep] + rest)[1..] == a[1..] + [sep] + rest;
      SplitAppend(a[1..], rest, sep);
      assert [a[0]] + a[1..] == a;
    }
  }

  /** Joining pieces that do not contain the separator and splitting again
      gives back the pieces. */
  lemma {:induction false} SplitJoin(parts: seq<string>, sep: char)
    requires |parts| >= 1
    requires forall i :: 0 <= i < |parts| ==> sep !in parts[i]
    ensures Split(Join(parts, sep), sep) == parts
    decreases |parts|
  {
    if |parts| == 1 {
      SplitNoSep(parts[0], sep);
    } else {
      SplitJoin(parts[1..], sep);
      SplitAppend(parts[0], Join(parts[1..], sep), sep);
      assert [parts[0]] + parts[1..] == parts;
    }
  }

  /** Does `pat` occur in `s` at position i? */
  predicate OccursAt(pat: string, s: string, i: int) {
    0 <= i && i + |pat| <= |s| && s[i..i + |pat|] == pat
  }

  /** `pat in s` for two strings. */
  predicate Occurs(pat: string, s: string) {
    exists i :: 0 <= i <= |s| - |pat| && OccursAt(pat, s, i)
  }

  /** The characters for which Python's `str.isspace()` holds, which are
      the characters `str.strip()` removes. */
  predicate IsSpace(c: char) {
    || c == '\t' || c == '\n' || c == '\U{000B}' || c == '\U{000C}' || c == '\r'
    || ('\U{001C}' <= c <= '\U{001F}') || c == ' ' || c == '\U{0085}' || c == '\U{00A0}'
    || c == '\U{1680}' || ('\U{2000}' <= c <= '\U{200A}') || c == '\U{2028}'
    || c == '\U{2029}' || c == '\U{202F}' || c == '\U{205F}' || c == '\U{3000}'
  }

  /** `s.lstrip()` */
  function StripLeft(s: string): string
    decreases |s|
  {
    if s != [] && IsSpace(s[0]) then StripLeft(s[1..]) else s
  }

  /** `s.rstrip()` */
  function StripRight(s: string): string
    decreases |s|
  {
    if s != [] && IsSpace(s[|s| - 1]) then StripRight(s[..|s| - 1]) else s
  }

  /** lstrip removes exactly the leading white space. */
  lemma {:induction false} StripLeftMeaning(s: string)
    ensures var r := StripLeft(s);
      && |r| <= |s| && r == s[|s| - |r|..]
      && (r == [] || !IsSpace(r[0]))
      && forall i :: 0 <= i < |s| - |r| ==> IsSpace(s[i])
    decreases |s|
  {
    if s != [] && IsSpace(s[0]) {
      StripLeftMeaning(s[1..]);
      var r := StripLeft(s[1..]);
      forall i | 1 <= i < |s| - |r| ensures IsSpace(s[i]) {
        assert s[i] == s[1..][i - 1];
      }
    }
  }

  /** rstrip removes exactly the trailing white space. */
  lemma {:induction false} StripRightMeaning(s: string)
    ensures var r := StripRight(s);
      && |r| <= |s| && r == s[..|r|]
      && (r == [] || !IsSpace(r[|r| - 1]))
      && forall i :: |r| <= i < |s| ==> IsSpace(s[i])
    decreases |s|
  {
    if s != [] && IsSpace(s[|s| - 1]) {
      StripRightMeaning(s[..|s| - 1]);
      var r := StripRight(s[..|s| - 1]);
      forall i | |r| <= i < |s| - 1 ensures IsSpace(s[i]) {
        assert s[i] == s[..|s| - 1][i];
      }
    }
  }

  lemma StripAllSpace(s: string, l: string)
    requires |l| <= |s| && l == s[|s| - |l|..]
    requires forall i :: 0 <= i < |s| - |l| ==> IsSpace(s[i])
    requires forall i :: 0 <= i < |l| ==> IsSpace(l[i])
    ensures forall i :: 0 <= i < |s| ==> IsSpace(s[i])
  {
    forall i | |s| - |l| <= i < |s| ensures IsSpace(s[i]) {
      assert s[i] == l[i - (|s| - |l|)];
    }
  }

  /** `s.strip()`: the string without leading and trailing whitespace. */
  function Strip(s: string): string {
    StripRight(StripLeft(s))
  }

  /** The stripped string is a piece of the string that neither starts nor
      ends with white space, and it is empty exactly when the whole string
      is white space. */
  lemma StripMeaning(s: string)
    ensures var r := Strip(s);
      && (r == [] || (!IsSpace(r[0]) && !IsSpace(r[|r| - 1])))
      && (r == [] <==> forall i :: 0 <= i < |s| ==> IsSpace(s[i]))
      && Occurs(r, s)
  {
    var l := StripLeft(s);
    var r := StripRight(l);
    StripLeftMeaning(s);
    StripRightMeaning(l);
    assert OccursAt(r, s, |s| - |l|);
    if r == [] {
      StripAllSpace(s, l);
    }
  }

  /** `s.replace(pat, rep)`: every non-overlapping occurrence of `pat`,
      scanning from the left, replaced by `rep`. */
  function Replace(s: string, pat: string, rep: string): string
    requires pat != []
    decreases |s|
  {
    if |s| < |pat| then s
    else if s[..|pat|] == pat then rep + Replace(s[|pat|..], pat, rep)
    else [s[0]] + Replace(s[1..], pat, rep)
  }

  /** No non-empty proper prefix of `w` is also a suffix of it, so two
      occurrences of `w` can never overlap. */
  predicate BorderFree(w: string) {
    forall k :: 0 < k < |w| ==> w[..k] != w[|w| - k..]
  }

  /** An occurrence of `pat` at the start of `u + pat` that overlaps the
      final one exhibits a border of `pat`. */
  lemma OverlapIsBorder(u: string, pat: string)
    requires 0 < |u| < |pat| && (u + pat)[..|pat|] == pat
    ensures pat[..|pat| - |u|] == pat[|u|..]
  {
    var k := |pat| - |u|;
    forall i | 0 <= i < k ensures pat[i] == pat[|u| + i] {
      assert (u + pat)[|u| + i] == pat[i];
      assert (u + pat)[..|pat|][|u| + i] == (u + pat)[|u| + i];
    }
  }

  /** When `s` ends with an occurrence of a border-free `pat`, that final
      occurrence is replaced, so the result ends with `rep`. */
  lemma {:induction false} ReplaceAtEnd(u: string, pat: string, rep: string)
    requires pat != [] && BorderFree(pat)
    ensures exists x :: Replace(u + pat, pat, rep) == x + rep
    decreases |u|
  {
    var s := u + pat;
    assert u == [] ==> s[..|pat|] == pat;
    if s[..|pat|] == pat {
      if u == [] {
        assert s[|pat|..] == [];
        assert Replace(s, pat, rep) == [] + rep;
      } else if |u| >= |pat| {
        assert s[|pat|..] == u[|pat|..] + pat;
        ReplaceAtEnd(u[|pat|..], pat, rep);
        var x :| Replace(u[|pat|..] + pat, pat, rep) == x + rep;
        assert Replace(s, pat, rep) == (rep + x) + rep;
      } else {
        OverlapIsBorder(u, pat);
        assert false;
      }
    } else {
      assert s[1..] == u[1..] + pat;
      ReplaceAtEnd(u[1..], pat, rep);
      var x :| Replace(u[1..] + pat, pat, rep) == x + rep;
      assert Replace(s, pat, rep) == ([s[0]] + x) + rep;
    }
  }
}
