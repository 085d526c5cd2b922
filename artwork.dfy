/** The artwork of api/artwork.py: the nearest-colour search
    `rgb_to_cc_color` over the sixteen-colour CC:Tweaked palette, and the
    text picture `get_artwork` draws from a 20 x 10 thumbnail: ten lines
    `text|fg|bg`, joined by newlines, where each field holds one character
    per pixel. The picture is cached per video.

    Fetching the thumbnail, decoding and resizing it are parameters (the
    HTTP responses and the resized image), and so is the float arithmetic
    that picks the brightness character of a pixel. */
module Artwork {
  import opened PyValue
  import Text

  /** One colour component, as PIL gives it for an RGB image. */
  type Channel = x: int | 0 <= x < 256

  type Rgb = (Channel, Channel, Channel)

  // ---------------------------------------------------------------------
  // The palette

  /** The pairs of the dictionary literal in `rgb_to_cc_color`, in source
      order. The key (170, 0, 170) occurs twice, for '9' and for 'c'. */
  const ColorLiteral: seq<(Rgb, char)> := [
    ((0, 0, 0), '0'), ((0, 0, 170), '1'), ((102, 67, 0), '2'), ((0, 170, 170), '3'),
    ((85, 85, 85), '4'), ((0, 170, 0), '5'), ((102, 102, 255), '6'), ((170, 170, 170), '7'),
    ((170, 255, 0), '8'), ((170, 0, 170), '9'), ((255, 102, 0), 'a'), ((255, 192, 203), 'b'),
    ((170, 0, 170), 'c'), ((255, 0, 0), 'd'), ((255, 255, 0), 'e'), ((255, 255, 255), 'f')]

  /** `d[key] = value` on a dictionary kept as its entries in insertion
      order: an existing key keeps its place and takes the new value; a new
      key goes at the end. */
  function Insert(d: seq<(Rgb, char)>, key: Rgb, value: char): (r: seq<(Rgb, char)>)
    ensures (exists i :: 0 <= i < |d| && d[i].0 == key) ==> |r| == |d|
    ensures (forall i :: 0 <= i < |d| ==> d[i].0 != key) ==> r == d + [(key, value)]
  {
    if d == [] then [(key, value)]
    else if d[0].0 == key then [(key, value)] + d[1..]
    else
      assert forall i :: 1 <= i < |d| ==> d[1..][i - 1] == d[i];
      [d[0]] + Insert(d[1..], key, value)
  }

  /** A dictionary display: the pairs inserted from left to right. */
  function DictFromPairs(pairs: seq<(Rgb, char)>): seq<(Rgb, char)> {
    if pairs == [] then []
    else
      var last := pairs[|pairs| - 1];
      Insert(DictFromPairs(pairs[..|pairs| - 1]), last.0, last.1)
  }

  /** The dictionary `colors` as Python builds it. */
  function Palette(): seq<(Rgb, char)> {
    DictFromPairs(ColorLiteral)
  }

  /** No two of the pairs share a key. */
  predicate DistinctKeys(pairs: seq<(Rgb, char)>) {
    forall i, j :: 0 <= i < j < |pairs| ==> pairs[i].0 != pairs[j].0
  }

  /** A display without repeated keys builds exactly its pairs. */
  lemma {:induction false} DistinctKeysUnchanged(pairs: seq<(Rgb, char)>)
    requires DistinctKeys(pairs)
    ensures DictFromPairs(pairs) == pairs
  {
    if pairs != [] {
      var init := pairs[..|pairs| - 1];
      DistinctKeysUnchanged(init);
      assert init + [pairs[|pairs| - 1]] == pairs;
    }
  }

  /** Assigning to a key already present at index i replaces that entry
      only. */
  lemma {:induction false} InsertExisting(d: seq<(Rgb, char)>, i: nat, key: Rgb, value: char)
    requires i < |d| && d[i].0 == key
    requires forall j :: 0 <= j < i ==> d[j].0 != key
    ensures Insert(d, key, value) == d[i := (key, value)]
  {
    if i > 0 {
      InsertExisting(d[1..], i - 1, key, value);
      assert [d[0]] + d[1..][i - 1 := (key, value)] == d[i := (key, value)];
    }
  }

  /** The dictionary as Python builds it: 15 entries, magenta's key in its
      first place (index 9) holding the later value 'c'. */
  const CcColors: seq<(Rgb, char)> := [
    ((0, 0, 0), '0'), ((0, 0, 170), '1'), ((102, 67, 0), '2'), ((0, 170, 170), '3'),
    ((85, 85, 85), '4'), ((0, 170, 0), '5'), ((102, 102, 255), '6'), ((170, 170, 170), '7'),
    ((170, 255, 0), '8'), ((170, 0, 170), 'c'), ((255, 102, 0), 'a'), ((255, 192, 203), 'b'),
    ((255, 0, 0), 'd'), ((255, 255, 0), 'e'), ((255, 255, 255), 'f')]

  /** The first twelve pairs, up to the second magenta, have distinct
      keys. */
  lemma FirstTwelveDistinct()
    ensures DistinctKeys(ColorLiteral[..12])
  {
  }

  /** The first twelve pairs build themselves; the thirteenth reassigns
      magenta in place. */
  lemma ThirteenPairs()
    ensures DictFromPairs(ColorLiteral[..13]) == CcColors[..12]
  {
    var p := ColorLiteral;
    FirstTwelveDistinct();
    DistinctKeysUnchanged(p[..12]);
    assert p[..13][..12] == p[..12];
    InsertExisting(p[..12], 9, (170, 0, 170), 'c');
    assert p[..12][9 := ((170, 0, 170), 'c')] == CcColors[..12];
  }

  /** The last three pairs have new keys and are appended. */
  lemma SixteenPairs()
    ensures DictFromPairs(ColorLiteral) == CcColors
  {
    var p := ColorLiteral;
    ThirteenPairs();
    assert p[..14][..13] == p[..13];
    assert DictFromPairs(p[..14]) == CcColors[..13];
    assert p[..15][..14] == p[..14];
    assert DictFromPairs(p[..15]) == CcColors[..14];
    assert p[..16] == p;
    assert p[..15] == p[..16][..15];
  }

  /** The dictionary has 15 entries: magenta's key keeps its tenth slot
      (index 9) but holds 'c', and no entry holds '9'. */
  lemma PaletteEntries()
    ensures Palette() == CcColors
    ensures |Palette()| == 15
    ensures forall i :: 0 <= i < |Palette()| ==> Palette()[i].1 != '9'
  {
    SixteenPairs();
  }

  // ---------------------------------------------------------------------
  // rgb_to_cc_color

  /** The squared Euclidean distance. The source compares
      `sqrt(squared distance)` as floats with `<`; the square root is
      increasing, and for distances between colours with components in
      0..255 it keeps distinct squared distances apart, so comparing the
      integers decides the same way. */
  function SqDist(a: Rgb, b: Rgb): nat {
    var dr := a.0 - b.0;
    var dg := a.1 - b.1;
    var db := a.2 - b.2;
    dr * dr + dg * dg + db * db
  }

  /** Entry k is a nearest entry, and the first among equally near ones. */
  predicate IsNearest(pal: seq<(Rgb, char)>, c: Rgb, k: int) {
    && 0 <= k < |pal|
    && (forall j :: 0 <= j < |pal| ==> SqDist(c, pal[k].0) <= SqDist(c, pal[j].0))
    && (forall j :: 0 <= j < k ==> SqDist(c, pal[k].0) < SqDist(c, pal[j].0))
  }

  /** The index the running-minimum loop settles on. */
  function NearestIndex(pal: seq<(Rgb, char)>, c: Rgb): (k: nat)
    requires pal != []
    ensures IsNearest(pal, c, k)
  {
    if |pal| == 1 then 0
    else
      var init := pal[..|pal| - 1];
      var k := NearestIndex(init, c);
      assert forall j :: 0 <= j < |init| ==> init[j] == pal[j];
      if SqDist(c, pal[|pal| - 1].0) < SqDist(c, pal[k].0) then |pal| - 1 else k
  }

  /** The nearest entry is unique: any entry that is nearest and first
      among ties is the one NearestIndex finds. */
  lemma NearestIsUnique(pal: seq<(Rgb, char)>, c: Rgb, k: int)
    requires pal != [] && IsNearest(pal, c, k)
    ensures k == NearestIndex(pal, c)
  {
    var n := NearestIndex(pal, c);
  }

  /** `rgb_to_cc_color(r, g, b)` as a value, over the dictionary as built
      (`Palette() == CcColors`, PaletteEntries). */
  function RgbToCc(r: Channel, g: Channel, b: Channel): char {
    CcColors[NearestIndex(CcColors, (r, g, b))].1
  }

  /** The loop of `rgb_to_cc_color` over the entries of a dictionary:
      `min_dist` starts at infinity (None here) and `closest` at '0'; an
      entry strictly nearer than the best so far replaces it. */
  method ClosestEntry(colors: seq<(Rgb, char)>, c: Rgb) returns (closest: char)
    ensures colors == [] ==> closest == '0'
    ensures colors != [] ==> closest == colors[NearestIndex(colors, c)].1
  {
    var minDist: Option<nat> := None;
    closest := '0';
    var i := 0;
    while i < |colors|
      invariant 0 <= i <= |colors|
      invariant i == 0 ==> minDist.None? && closest == '0'
      invariant i > 0 ==>
        var k := NearestIndex(colors[..i], c);
        minDist == Some(SqDist(c, colors[k].0)) && closest == colors[k].1
    {
      var dist := SqDist(c, colors[i].0);
      if minDist.None? || dist < minDist.value {
        minDist := Some(dist);
        closest := colors[i].1;
      }
      assert colors[..i + 1][..i] == colors[..i];
      i := i + 1;
    }
    assert colors[..i] == colors;
  }

  /** `rgb_to_cc_color(r, g, b)`: the loop run over the dictionary as
      built; the answer is the character of the first nearest entry. */
  method NearestColor(r: Channel, g: Channel, b: Channel) returns (closest: char)
    ensures closest == RgbToCc(r, g, b)
  {
    PaletteEntries();
    closest := ClosestEntry(Palette(), (r, g, b));
  }

  /** The character is that of a nearest entry of the dictionary, the
      first among equally near ones. */
  lemma RgbToCcIsNearest(r: Channel, g: Channel, b: Channel)
    ensures exists k :: IsNearest(Palette(), (r, g, b), k) && RgbToCc(r, g, b) == Palette()[k].1
  {
    PaletteEntries();
    var k := NearestIndex(CcColors, (r, g, b));
    assert IsNearest(Palette(), (r, g, b), k);
  }

  /** The result is always a character of the dictionary, and never '9'. */
  lemma NeverNine(r: Channel, g: Channel, b: Channel)
    ensures RgbToCc(r, g, b) != '9'
    ensures exists k :: 0 <= k < |Palette()| && RgbToCc(r, g, b) == Palette()[k].1
  {
    PaletteEntries();
    var k := NearestIndex(CcColors, (r, g, b));
    assert RgbToCc(r, g, b) == Palette()[k].1;
  }

  /** Only equal colours are at distance 0. */
  lemma SqDistZero(a: Rgb, b: Rgb)
    ensures SqDist(a, b) == 0 <==> a == b
  {
    var dr, dg, db := a.0 - b.0, a.1 - b.1, a.2 - b.2;
    assert dr * dr >= 0 && dg * dg >= 0 && db * db >= 0;
    if dr != 0 { assert dr * dr > 0; }
    if dg != 0 { assert dg * dg > 0; }
    if db != 0 { assert db * db > 0; }
  }

  /** When no earlier entry has the same key, the colour of entry k is
      nearest to entry k: its distance is 0 and every earlier key lies at a
      positive distance. */
  lemma ExactMatch(pal: seq<(Rgb, char)>, k: nat)
    requires k < |pal|
    requires forall j :: 0 <= j < k ==> pal[j].0 != pal[k].0
    ensures NearestIndex(pal, pal[k].0) == k
  {
    var c := pal[k].0;
    SqDistZero(c, c);
    forall j | 0 <= j < k ensures 0 < SqDist(c, pal[j].0) {
      SqDistZero(c, pal[j].0);
    }
    NearestIsUnique(pal, c, k);
  }

  /** A colour of the dictionary maps to its own character. */
  lemma ExactColorMapsToItself(k: nat)
    requires k < |Palette()|
    ensures RgbToCc(Palette()[k].0.0, Palette()[k].0.1, Palette()[k].0.2) == Palette()[k].1
  {
    PaletteEntries();
    var pal := Palette();
    forall j | 0 <= j < k ensures pal[j].0 != pal[k].0 {
      EntryKeysDiffer(j, k);
    }
    ExactMatch(pal, k);
  }

  /** The keys of the dictionary are pairwise different. */
  lemma EntryKeysDiffer(j: nat, k: nat)
    requires j < k < |Palette()|
    ensures Palette()[j].0 != Palette()[k].0
  {
    PaletteEntries();
  }

  /** Black maps to '0'. */
  lemma BlackIsZero()
    ensures RgbToCc(0, 0, 0) == '0'
  {
    PaletteEntries();
    ExactColorMapsToItself(0);
  }

  /** White maps to 'f'. */
  lemma WhiteIsF()
    ensures RgbToCc(255, 255, 255) == 'f'
  {
    PaletteEntries();
    ExactColorMapsToItself(14);
  }

  /** Magenta maps to 'c', the value the repeated key ends up holding. */
  lemma MagentaIsC()
    ensures RgbToCc(170, 0, 170) == 'c'
  {
    PaletteEntries();
    ExactColorMapsToItself(9);
  }

  // ---------------------------------------------------------------------
  // The picture

  /** One pixel of the resized RGB image. */
  datatype Pixel = Pixel(r: Channel, g: Channel, b: Channel)

  /** The resized image: `pixels[x, y]` for x < 20 and y < 10. */
  type Image = (nat, nat) -> Pixel

  const TargetWidth: nat := 20
  const TargetHeight: nat := 10

  /** `ascii_chars`, dark to light. */
  const AsciiChars: string := " .:-=+*#%@"

  /** The index into `ascii_chars` the float computation picks for a pixel. */
  type GlyphIndex = i: int | 0 <= i < 10

  /** `brightness = (r + g + b) / 3.0` */
  function Brightness(p: Pixel): real {
    (p.r + p.g + p.b) as real / 3.0
  }

  /** The foreground: black text on light pixels, white on dark ones. */
  function Foreground(p: Pixel): (c: char)
    ensures c == '0' <==> p.r + p.g + p.b > 384
    ensures c == '0' || c == 'f'
  {
    if Brightness(p) > 128.0 then '0' else 'f'
  }

  /** The background: the nearest palette colour of the pixel. */
  function Background(p: Pixel): char {
    RgbToCc(p.r, p.g, p.b)
  }

  /** The three fields of row y. */
  function TextRow(img: Image, glyph: Pixel -> GlyphIndex, y: nat): (s: string)
    ensures |s| == TargetWidth
  {
    seq(TargetWidth, x requires 0 <= x < TargetWidth => AsciiChars[glyph(img(x, y))])
  }

  function FgRow(img: Image, y: nat): (s: string)
    ensures |s| == TargetWidth
  {
    seq(TargetWidth, x requires 0 <= x < TargetWidth => Foreground(img(x, y)))
  }

  function BgRow(img: Image, y: nat): (s: string)
    ensures |s| == TargetWidth
  {
    seq(TargetWidth, x requires 0 <= x < TargetWidth => Background(img(x, y)))
  }

  /** `f"{line_text}|{line_fg}|{line_bg}"` */
  function ArtLine(img: Image, glyph: Pixel -> GlyphIndex, y: nat): string {
    TextRow(img, glyph, y) + "|" + FgRow(img, y) + "|" + BgRow(img, y)
  }

  /** The lines of the picture. */
  function ArtLines(img: Image, glyph: Pixel -> GlyphIndex): (lines: seq<string>)
    ensures |lines| == TargetHeight
  {
    seq(TargetHeight, y requires 0 <= y < TargetHeight => ArtLine(img, glyph, y))
  }

  /** `"\n".join(ascii_lines)` */
  function Picture(img: Image, glyph: Pixel -> GlyphIndex): string {
    Text.Join(ArtLines(img, glyph), '\n')
  }

  /** The inner drawing loop: one character per pixel of row y appended to
      each of the three fields, which are then joined into the row's line. */
  method RenderRow(img: Image, glyph: Pixel -> GlyphIndex, y: nat) returns (line: string)
    ensures line == ArtLine(img, glyph, y)
  {
    var lineText, lineFg, lineBg := "", "", "";
    var x := 0;
    while x < TargetWidth
      invariant 0 <= x <= TargetWidth
      invariant lineText == TextRow(img, glyph, y)[..x]
      invariant lineFg == FgRow(img, y)[..x]
      invariant lineBg == BgRow(img, y)[..x]
    {
      var p := img(x, y);
      var bgColor := NearestColor(p.r, p.g, p.b);
      var fgColor := if Brightness(p) > 128.0 then '0' else 'f';
      assert TextRow(img, glyph, y)[..x + 1] == TextRow(img, glyph, y)[..x] + [AsciiChars[glyph(p)]];
      assert FgRow(img, y)[..x + 1] == FgRow(img, y)[..x] + [fgColor];
      assert BgRow(img, y)[..x + 1] == BgRow(img, y)[..x] + [bgColor];
      lineText := lineText + [AsciiChars[glyph(p)]];
      lineFg := lineFg + [fgColor];
      lineBg := lineBg + [bgColor];
      x := x + 1;
    }
    assert lineText == TextRow(img, glyph, y) && lineFg == FgRow(img, y) && lineBg == BgRow(img, y);
    line := lineText + "|" + lineFg + "|" + lineBg;
  }

  /** The outer drawing loop: the lines of the rows, in order, joined with
      newlines. */
  method Render(img: Image, glyph: Pixel -> GlyphIndex) returns (text: string)
    ensures text == Picture(img, glyph)
  {
    var asciiLines: seq<string> := [];
    var y := 0;
    while y < TargetHeight
      invariant 0 <= y <= TargetHeight
      invariant asciiLines == ArtLines(img, glyph)[..y]
    {
      var line := RenderRow(img, glyph, y);
      assert ArtLines(img, glyph)[..y + 1] == ArtLines(img, glyph)[..y] + [line];
      asciiLines := asciiLines + [line];
      y := y + 1;
    }
    assert asciiLines == ArtLines(img, glyph);
    text := Text.Join(asciiLines, '\n');
  }

  /** A background character is a hexadecimal digit, so neither
      separator. */
  lemma BackgroundIsDigit(p: Pixel)
    ensures Background(p) in "0123456789abcdef"
  {
    var k := NearestIndex(CcColors, (p.r, p.g, p.b));
    assert CcColors[k].1 in "0123456789abcdef";
  }

  /** Neither separator occurs inside a field: the glyphs, '0'/'f' and the
      palette characters are all different from '|' and from a newline. */
  lemma FieldsHaveNoSeparators(img: Image, glyph: Pixel -> GlyphIndex, y: nat)
    ensures '|' !in TextRow(img, glyph, y) && '|' !in FgRow(img, y) && '|' !in BgRow(img, y)
    ensures '\n' !in ArtLine(img, glyph, y)
  {
    var bg := BgRow(img, y);
    forall x | 0 <= x < TargetWidth
      ensures bg[x] != '|' && bg[x] != '\n'
    {
      BackgroundIsDigit(img(x, y));
    }
  }

  /** Splitting the picture on newlines gives back its ten lines. */
  lemma PictureLines(img: Image, glyph: Pixel -> GlyphIndex)
    ensures Text.Split(Picture(img, glyph), '\n') == ArtLines(img, glyph)
  {
    var lines := ArtLines(img, glyph);
    forall i | 0 <= i < |lines| ensures '\n' !in lines[i] {
      FieldsHaveNoSeparators(img, glyph, i);
    }
    Text.SplitJoin(lines, '\n');
  }

  /** Splitting line y on '|' gives its three 20-character fields, whose
      x-th characters are the glyph, the foreground and the background of
      pixel (x, y). */
  lemma LineFields(img: Image, glyph: Pixel -> GlyphIndex, y: nat, x: nat)
    requires y < TargetHeight && x < TargetWidth
    ensures var fields := Text.Split(ArtLine(img, glyph, y), '|');
      && |fields| == 3
      && |fields[0]| == |fields[1]| == |fields[2]| == TargetWidth
      && fields[0][x] == AsciiChars[glyph(img(x, y))]
      && fields[1][x] == Foreground(img(x, y))
      && fields[2][x] == Background(img(x, y))
  {
    FieldsHaveNoSeparators(img, glyph, y);
    var t, f, b := TextRow(img, glyph, y), FgRow(img, y), BgRow(img, y);
    assert ArtLine(img, glyph, y) == Text.Join([t, f, b], '|') by {
      assert Text.Join([b], '|') == b;
      assert Text.Join([f, b], '|') == f + "|" + b;
      assert Text.Join([t, f, b], '|') == t + "|" + (f + "|" + b);
    }
    Text.SplitJoin([t, f, b], '|');
  }

  // ---------------------------------------------------------------------
  // get_artwork

  /** An HTTP response for a thumbnail URL: its status code and, when the
      body decodes as an image, the image resized to 20 x 10 (None when
      PIL raises). */
  datatype Response = Response(status: int, image: Option<Image>)

  const ArtworkCacheDir: string := "cache/artwork"

  function ArtworkCachePath(videoId: string): string {
    ArtworkCacheDir + "/" + videoId + ".txt"
  }

  /** What the code computes from the responses for the maxresdefault and
      hqdefault thumbnails: None for the early "" (no thumbnail, or an
      exception), which is not cached; the picture otherwise. The second
      request is made only when the first does not answer 200. */
  function Drawn(maxres: Outcome<Response>, hq: Outcome<Response>, glyph: Pixel -> GlyphIndex): Option<string> {
    if maxres.Raised? then None
    else
      var response := if maxres.value.status != 200 then hq else maxres;
      if response.Raised? || response.value.status != 200 || response.value.image.None? then None
      else Some(Picture(response.value.image.value, glyph))
  }

  /** The artwork cache directory: a map from path to file text. */
  class ArtworkStore {
    var files: map<string, string>

    constructor(initial: map<string, string>)
      ensures files == initial
    {
      files := initial;
    }

    /** `get_artwork(video_id)`: the cached text if there is one; otherwise
        the thumbnail is drawn, cached and returned, or "" is returned. */
    method GetArtwork(videoId: string, maxres: Outcome<Response>, hq: Outcome<Response>, glyph: Pixel -> GlyphIndex)
      returns (art: string)
      modifies this
      ensures ArtworkCachePath(videoId) in old(files) ==>
        art == old(files)[ArtworkCachePath(videoId)] && files == old(files)
      ensures ArtworkCachePath(videoId) !in old(files) ==>
        match Drawn(maxres, hq, glyph)
        case None => art == "" && files == old(files)
        case Some(picture) => art == picture && files == old(files)[ArtworkCachePath(videoId) := picture]
    {
      var path := ArtworkCachePath(videoId);
      if path in files {
        return files[path];
      }
      if maxres.Raised? {
        return "";
      }
      var response := maxres;
      if response.value.status != 200 {
        response := hq;
        if response.Raised? {
          return "";
        }
      }
      if response.value.status != 200 || response.value.image.None? {
        return "";
      }
      art := Render(response.value.image.value, glyph);
      files := files[path := art];
    }
  }
}
