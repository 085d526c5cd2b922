/** The audio delivery path of the backend: the chunk server, the name of
    the cached DFPWM file for a (video id, channel) pair, the choice of the
    ffmpeg pan filter, the lookup of the downloaded source audio, and the
    cache-or-encode step that ties them to the encoder.

    The file system is a map from path to contents held by a `FileStore`;
    a path exists when it is a key of the map. ffmpeg is a parameter: given
    the bytes of the source file and the pan filter it yields the raw PCM
    it writes, or None when it exits with an error. */
module Audio {
  import opened PyValue
  import Text
  import DfpwmEncoder
  import HexCodec

  type Byte = DfpwmEncoder.Byte

  /** The external decoder: source file contents and pan filter to raw
      signed 16-bit little-endian mono PCM at 48 kHz, or None on failure. */
  type Ffmpeg = (seq<Byte>, string) -> Option<seq<Byte>>

  const AudioCacheDir: string := "cache/audio"
  const DfpwmCacheDir: string := "cache/dfpwm"

  // ---------------------------------------------------------------------
  // Chunk server

  /** The JSON reply `{"data": <hex>, "done": <bool>}`. */
  datatype ChunkReply = ChunkReply(data: string, done: bool)

  /** `{"data": "", "done": True}`: nothing (more) to play. */
  const EmptyFinal := ChunkReply("", true)

  /** The largest size a binary file's `read` accepts: a C `Py_ssize_t`. */
  const MaxReadSize: int := 0x7FFF_FFFF_FFFF_FFFF

  /** `f.read(size)` on a binary file raises for a size below -1
      (ValueError) and for one beyond a C `Py_ssize_t` (OverflowError). */
  predicate ReadRaises(size: int) {
    size < -1 || size > MaxReadSize
  }

  /** How many bytes `f.read(size)` returns after `f.seek(offset)` on a file
      of `fileSize` bytes: up to `size` bytes, and everything up to the end
      of the file when `size` is -1. */
  function ReadCount(fileSize: nat, offset: nat, size: int): (n: nat)
    requires offset <= fileSize && size >= -1
    ensures offset + n <= fileSize
    ensures size >= 0 ==> n == DfpwmEncoder.Min(size, fileSize - offset)
    ensures size == -1 ==> offset + n == fileSize
  {
    if size == -1 then fileSize - offset else DfpwmEncoder.Min(size, fileSize - offset)
  }

  /** The reply for one chunk request on an encoded file that exists. An
      offset at or past the end gives the empty final reply; a negative
      offset makes `f.seek` raise, which the handler turns into the same
      reply, and so does a size `f.read` rejects. Otherwise the data is the
      hex of the bytes read from the offset, and `done` says whether they
      reach the end of the file. `size` is not checked beforehand: 0 reads
      nothing, -1 reads to the end. */
  function ServeChunk(file: seq<Byte>, offset: int, size: int): ChunkReply {
    if offset >= |file| then EmptyFinal
    else if offset < 0 then EmptyFinal
    else if ReadRaises(size) then EmptyFinal
    else
      var chunk := file[offset..offset + ReadCount(|file|, offset, size)];
      ChunkReply(HexCodec.Hex(chunk), offset + |chunk| >= |file|)
  }

  /** Outside the file, or with a size `f.read` rejects, the reply is the
      empty final one; otherwise its data decodes to exactly the bytes read
      from the offset (up to `size`, or to the end for -1), and `done` holds
      exactly when they reach the end of the file. */
  lemma ServeChunkMeaning(file: seq<Byte>, offset: int, size: int)
    ensures offset >= |file| || offset < 0 ==> ServeChunk(file, offset, size) == EmptyFinal
    ensures ReadRaises(size) ==> ServeChunk(file, offset, size) == EmptyFinal
    ensures 0 <= offset < |file| && !ReadRaises(size) ==>
      var r := ServeChunk(file, offset, size);
      var n := ReadCount(|file|, offset, size);
      && |r.data| == 2 * n
      && HexCodec.FromHex(r.data) == Some(file[offset..offset + n])
      && (r.done <==> offset + n == |file|)
  {
    if 0 <= offset < |file| && !ReadRaises(size) {
      HexCodec.FromHexHex(file[offset..offset + ReadCount(|file|, offset, size)]);
    }
  }

  /** Inside the file and with a size `f.read` accepts, the reply is the
      hex of the bytes read and `done` says whether they reach the end. */
  lemma ServeInside(file: seq<Byte>, offset: int, size: int)
    requires 0 <= offset < |file| && !ReadRaises(size)
    ensures var n := ReadCount(|file|, offset, size);
      ServeChunk(file, offset, size) == ChunkReply(HexCodec.Hex(file[offset..offset + n]), offset + n == |file|)
  {
  }

  /** The boundary cases of the chunk contract for a file of L bytes: the
      last byte alone is final, and a request exactly at the end is empty
      and final. */
  lemma ChunkAtEnd(file: seq<Byte>, size: int)
    ensures |file| >= 1 ==> ServeChunk(file, |file| - 1, 10) == ChunkReply(HexCodec.Hex([file[|file| - 1]]), true)
    ensures ServeChunk(file, |file|, size) == EmptyFinal
  {
    if |file| >= 1 {
      var last := |file| - 1;
      assert ReadCount(|file|, last, 10) == 1;
      ServeInside(file, last, 10);
      assert file[last..last + 1] == [file[last]];
    }
  }

  /** A request from the start at least as large as the file (and within
      what `f.read` accepts), or of size -1, returns the whole file and is
      final; one of size -2 or less returns nothing and is final; a request
      of size 0 inside the file returns nothing and is NOT final, so a
      client asking for 0 bytes never finishes. */
  lemma ChunkFromStart(file: seq<Byte>, size: int)
    requires |file| >= 1
    ensures (|file| <= size <= MaxReadSize || size == -1) ==> ServeChunk(file, 0, size) == ChunkReply(HexCodec.Hex(file), true)
    ensures size < -1 ==> ServeChunk(file, 0, size) == ChunkReply("", true)
    ensures ServeChunk(file, 0, 0) == ChunkReply("", false)
  {
    if |file| <= size <= MaxReadSize || size == -1 {
      assert ReadCount(|file|, 0, size) == |file|;
      ServeInside(file, 0, size);
      assert file[0..|file|] == file;
    }
    assert ReadCount(|file|, 0, 0) == 0;
    ServeInside(file, 0, 0);
    assert file[0..0] == [];
  }

  /** What a client polling with a fixed positive `size` that `f.read`
      accepts collects: the data of every reply from `offset` on, until one
      says `done`. (A larger size ends polling at once with nothing.) */
  function Collect(file: seq<Byte>, offset: nat, size: int): string
    requires 0 < size <= MaxReadSize
    decreases |file| - offset
  {
    var r := ServeChunk(file, offset, size);
    if r.done then r.data else r.data + Collect(file, offset + size, size)
  }

  /** The last poll: a reply that reaches the end of the file carries the
      rest of it. */
  lemma CollectLast(file: seq<Byte>, offset: nat, size: int)
    requires 0 < size <= MaxReadSize && offset < |file| <= offset + size
    ensures Collect(file, offset, size) == HexCodec.Hex(file[offset..])
  {
    assert ReadCount(|file|, offset, size) == |file| - offset;
    ServeInside(file, offset, size);
    assert file[offset..offset + (|file| - offset)] == file[offset..];
  }

  /** One polling step before the end: the reply carries exactly `size`
      bytes and the client continues right after them. */
  lemma CollectMore(file: seq<Byte>, offset: nat, size: int)
    requires 0 < size <= MaxReadSize && offset + size < |file|
    ensures Collect(file, offset, size) == HexCodec.Hex(file[offset..offset + size]) + Collect(file, offset + size, size)
  {
    assert ReadCount(|file|, offset, size) == size;
    ServeInside(file, offset, size);
  }

  /** The hex of a suffix is the hex of its first part followed by the hex
      of the rest. */
  lemma HexOfSplit(file: seq<Byte>, offset: nat, mid: nat)
    requires offset <= mid <= |file|
    ensures HexCodec.Hex(file[offset..]) == HexCodec.Hex(file[offset..mid]) + HexCodec.Hex(file[mid..])
  {
    HexCodec.HexAppend(file[offset..mid], file[mid..]);
    assert file[offset..mid] + file[mid..] == file[offset..];
  }

  /** A poll before the end delivers the whole rest of the file when the
      polls after it do. */
  lemma CollectMoreDelivers(file: seq<Byte>, offset: nat, size: int)
    requires 0 < size <= MaxReadSize && offset + size < |file|
    requires Collect(file, offset + size, size) == HexCodec.Hex(file[offset + size..])
    ensures Collect(file, offset, size) == HexCodec.Hex(file[offset..])
  {
    var rest := Collect(file, offset + size, size);
    CollectMore(file, offset, size);
    HexOfSplit(file, offset, offset + size);
    calc {
      Collect(file, offset, size);
      HexCodec.Hex(file[offset..offset + size]) + rest;
      HexCodec.Hex(file[offset..offset + size]) + HexCodec.Hex(file[offset + size..]);
      HexCodec.Hex(file[offset..]);
    }
  }

  /** A client that starts at the end collects nothing. */
  lemma CollectAtEnd(file: seq<Byte>, size: int)
    requires 0 < size <= MaxReadSize
    ensures Collect(file, |file|, size) == HexCodec.Hex(file[|file|..])
  {
    assert file[|file|..] == [];
  }

  /** Polling from offset 0 with any positive chunk size that `f.read`
      accepts delivers the whole encoded file, in order, with nothing
      repeated or skipped. */
  lemma {:induction false} CollectDeliversFile(file: seq<Byte>, offset: nat, size: int)
    requires 0 < size <= MaxReadSize && offset <= |file|
    ensures Collect(file, offset, size) == HexCodec.Hex(file[offset..])
    decreases |file| - offset
  {
    if offset == |file| {
      CollectAtEnd(file, size);
    } else if offset + size >= |file| {
      CollectLast(file, offset, size);
    } else {
      CollectDeliversFile(file, offset + size, size);
      CollectMoreDelivers(file, offset, size);
    }
  }

  // ---------------------------------------------------------------------
  // Cache naming

  /** `if channel:` treats a missing and an empty channel alike. */
  function EffectiveChannel(channel: Option<string>): Option<string> {
    if channel.Some? && channel.value != "" then channel else None
  }

  /** The cached file's name: `{id}_{channel}.dfpwm`, or `{id}.dfpwm`
      without a channel. */
  function CacheFileName(videoId: string, channel: Option<string>): string {
    match EffectiveChannel(channel)
    case Some(c) => videoId + "_" + c + ".dfpwm"
    case None => videoId + ".dfpwm"
  }

  /** `os.path.join(DFPWM_CACHE_DIR, name)`. */
  function DfpwmPath(videoId: string, channel: Option<string>): string {
    DfpwmCacheDir + "/" + CacheFileName(videoId, channel)
  }

  /** Reads an 11-character video id and the channel back from a cache file
      name. */
  function ParseCacheFileName(name: string): Option<(string, Option<string>)> {
    if |name| < 17 || name[|name| - 6..] != ".dfpwm" then None
    else if |name| == 17 && name[11] == '.' then Some((name[..11], None))
    else if |name| > 18 && name[11] == '_' then Some((name[..11], Some(name[12..|name| - 6])))
    else None
  }

  /** For 11-character ids the name determines the id and the effective
      channel. */
  lemma CacheFileNameRoundTrip(videoId: string, channel: Option<string>)
    requires |videoId| == 11
    ensures ParseCacheFileName(CacheFileName(videoId, channel)) == Some((videoId, EffectiveChannel(channel)))
  {
    var name := CacheFileName(videoId, channel);
    assert name[..11] == videoId;
    match EffectiveChannel(channel)
    case Some(c) =>
      assert name[12..|name| - 6] == c;
    case None =>
  }

  /** Distinct (11-character id, channel) pairs get distinct files; mono,
      left and right are cached under three different names. */
  lemma CacheFileNameInjective(id1: string, ch1: Option<string>, id2: string, ch2: Option<string>)
    requires |id1| == 11 && |id2| == 11
    requires CacheFileName(id1, ch1) == CacheFileName(id2, ch2)
    ensures id1 == id2 && EffectiveChannel(ch1) == EffectiveChannel(ch2)
  {
    CacheFileNameRoundTrip(id1, ch1);
    CacheFileNameRoundTrip(id2, ch2);
  }

  /** The audio route does not check the id, and with ids of other lengths
      two requests can share a file: id `a_b` in mono and id `a` on channel
      `b`. */
  lemma OtherIdLengthsCanCollide()
    ensures CacheFileName("a_b", None) == CacheFileName("a", Some("b"))
  {
  }

  /** `dfpwm_file.replace('.dfpwm', ...)`: the temporary PCM file's path. */
  function PcmPath(videoId: string, channel: Option<string>): string {
    var suffix := match EffectiveChannel(channel)
      case Some(c) => "_" + c + ".pcm"
      case None => ".pcm";
    Text.Replace(DfpwmPath(videoId, channel), ".dfpwm", suffix)
  }

  /** The temporary PCM file never has the cached file's path, so removing
      it keeps the freshly written stream. */
  lemma PcmPathDiffers(videoId: string, channel: Option<string>)
    ensures PcmPath(videoId, channel) != DfpwmPath(videoId, channel)
  {
    var ext := ".dfpwm";
    assert Text.BorderFree(ext) by {
      forall k | 0 < k < |ext| ensures ext[..k] != ext[|ext| - k..] {
        assert ext[..k][0] == '.';
        assert ext[|ext| - k..][0] != '.';
      }
    }
    var suffix := match EffectiveChannel(channel)
      case Some(c) => "_" + c + ".pcm"
      case None => ".pcm";
    var u := DfpwmCacheDir + "/" + match EffectiveChannel(channel)
      case Some(c) => videoId + "_" + c
      case None => videoId;
    assert DfpwmPath(videoId, channel) == u + ext;
    Text.ReplaceAtEnd(u, ext, suffix);
    var x :| Text.Replace(u + ext, ext, suffix) == x + suffix;
    var p := PcmPath(videoId, channel);
    var d := DfpwmPath(videoId, channel);
    assert p[|p| - 2] == 'c';
    assert d[|d| - 2] == 'w';
  }

  // ---------------------------------------------------------------------
  // Pan filter

  const MonoFilter: string := "pan=mono|c0=0.5*c0+0.5*c1"
  const LeftFilter: string := "pan=mono|c0=0.5*c0"
  const RightFilter: string := "pan=mono|c0=0.5*c1"

  /** The ffmpeg filter for a channel: `"left"` keeps the first input
      channel at half amplitude, any other non-empty channel the second, and
      no channel averages both. */
  function PanFilter(channel: Option<string>): (f: string)
    ensures f == LeftFilter <==> EffectiveChannel(channel) == Some("left")
    ensures f == RightFilter <==> EffectiveChannel(channel).Some? && EffectiveChannel(channel) != Some("left")
    ensures f == MonoFilter <==> EffectiveChannel(channel).None?
  {
    if channel.Some? && channel.value != "" then
      if channel.value == "left" then LeftFilter else RightFilter
    else MonoFilter
  }

  // ---------------------------------------------------------------------
  // Source locator

  /** The download cache is searched for these containers, in this order. */
  const SourceExtensions: seq<string> := ["m4a", "mp3", "webm", "opus"]

  function SourcePath(videoId: string, ext: string): string {
    AudioCacheDir + "/" + videoId + "." + ext
  }

  /** The first of the candidate extensions whose file exists. */
  function FirstSource(files: map<string, seq<Byte>>, videoId: string, exts: seq<string>): (r: Option<string>)
    ensures r.Some? ==> r.value in files
    ensures r.Some? ==> exists i :: 0 <= i < |exts| && r.value == SourcePath(videoId, exts[i])
                                   && forall j :: 0 <= j < i ==> SourcePath(videoId, exts[j]) !in files
    ensures r.None? <==> forall i :: 0 <= i < |exts| ==> SourcePath(videoId, exts[i]) !in files
    decreases |exts|
  {
    if exts == [] then None
    else if SourcePath(videoId, exts[0]) in files then Some(SourcePath(videoId, exts[0]))
    else
      var r := FirstSource(files, videoId, exts[1..]);
      assert forall i :: 1 <= i < |exts| ==> exts[i] == exts[1..][i - 1];
      r
  }

  /** The search loop of the source: try each extension in order and stop
      at the first file that exists. */
  method LocateSource(files: map<string, seq<Byte>>, videoId: string) returns (source: Option<string>)
    ensures source == FirstSource(files, videoId, SourceExtensions)
    ensures source.Some? ==> source.value in files
  {
    source := None;
    var i := 0;
    while i < |SourceExtensions|
      invariant 0 <= i <= |SourceExtensions|
      invariant FirstSource(files, videoId, SourceExtensions) == FirstSource(files, videoId, SourceExtensions[i..])
    {
      var testFile := SourcePath(videoId, SourceExtensions[i]);
      if testFile in files {
        source := Some(testFile);
        break;
      }
      assert SourceExtensions[i..][1..] == SourceExtensions[i + 1..];
      i := i + 1;
    }
  }

  // ---------------------------------------------------------------------
  // Cache-or-encode

  /** The effect of `ensure_dfpwm_ready` on the file store: the path it
      returns and the store afterwards. A cached file is returned untouched;
      with no source audio, or when ffmpeg fails, None is returned and no
      cache file is created; otherwise ffmpeg writes the PCM file, the
      encoder writes the cache file from it, and the PCM file is removed. */
  function Ensured(files: map<string, seq<Byte>>, videoId: string, channel: Option<string>, ffmpeg: Ffmpeg)
    : (Option<string>, map<string, seq<Byte>>)
  {
    var dfpwm := DfpwmPath(videoId, channel);
    if dfpwm in files then (Some(dfpwm), files)
    else
      var source := FirstSource(files, videoId, SourceExtensions);
      if source.None? then (None, files)
      else
        var samples := ffmpeg(files[source.value], PanFilter(channel));
        if samples.None? then (None, files)
        else
          var pcm := PcmPath(videoId, channel);
          var written := files[pcm := samples.value];
          (Some(dfpwm), written[dfpwm := DfpwmEncoder.Encode(written[pcm])] - {pcm})
  }

  /** A cached stream is served as it is: the decoder is not consulted and
      nothing changes. */
  lemma CachedIsReused(files: map<string, seq<Byte>>, videoId: string, channel: Option<string>, ffmpeg: Ffmpeg)
    requires DfpwmPath(videoId, channel) in files
    ensures Ensured(files, videoId, channel, ffmpeg) == (Some(DfpwmPath(videoId, channel)), files)
  {
  }

  /** A request before the download has finished leaves no cache file, so a
      later request tries again. */
  lemma NotReadyLeavesNoEntry(files: map<string, seq<Byte>>, videoId: string, channel: Option<string>, ffmpeg: Ffmpeg)
    requires DfpwmPath(videoId, channel) !in files
    requires forall ext :: ext in SourceExtensions ==> SourcePath(videoId, ext) !in files
    ensures Ensured(files, videoId, channel, ffmpeg) == (None, files)
  {
    assert forall i :: 0 <= i < |SourceExtensions| ==> SourceExtensions[i] in SourceExtensions;
  }

  /** After a successful encode the cache file holds the encoding of what
      ffmpeg produced, and a second request finds it and does not decode
      again, whatever the decoder would now do. */
  lemma EncodeThenReuse(files: map<string, seq<Byte>>, videoId: string, channel: Option<string>,
                        ffmpeg: Ffmpeg, later: Ffmpeg)
    requires Ensured(files, videoId, channel, ffmpeg).0.Some?
    ensures var (path, after) := Ensured(files, videoId, channel, ffmpeg);
      && path == Some(DfpwmPath(videoId, channel))
      && path.value in after
      && Ensured(after, videoId, channel, later) == (path, after)
  {
    PcmPathDiffers(videoId, channel);
  }

  /** The encoded stream depends only on the source bytes and the filter
      that ffmpeg sees. */
  lemma EncodedContent(files: map<string, seq<Byte>>, videoId: string, channel: Option<string>, ffmpeg: Ffmpeg)
    requires DfpwmPath(videoId, channel) !in files
    requires Ensured(files, videoId, channel, ffmpeg).0.Some?
    ensures var source := FirstSource(files, videoId, SourceExtensions);
      && source.Some?
      && ffmpeg(files[source.value], PanFilter(channel)).Some?
      && DfpwmPath(videoId, channel) in Ensured(files, videoId, channel, ffmpeg).1
      && Ensured(files, videoId, channel, ffmpeg).1[DfpwmPath(videoId, channel)]
         == DfpwmEncoder.Encode(ffmpeg(files[source.value], PanFilter(channel)).value)
  {
    PcmPathDiffers(videoId, channel);
  }

  /** The body of the `try` in `get_audio_chunk` once the file exists:
      seek, read, hex-encode and report whether the end was reached. */
  method ReadChunk(file: seq<Byte>, offset: int, size: int) returns (reply: ChunkReply)
    ensures reply == ServeChunk(file, offset, size)
  {
    var fileSize := |file|;
    if offset >= fileSize {
      return EmptyFinal;
    }
    if offset < 0 {
      // f.seek raises; the handler answers with the empty final reply
      return EmptyFinal;
    }
    if size < -1 || size > MaxReadSize {
      // f.read raises ValueError or OverflowError; same reply
      return EmptyFinal;
    }
    var chunkData := file[offset..offset + ReadCount(fileSize, offset, size)];
    var hexData := HexCodec.Hex(chunkData);
    var done := offset + |chunkData| >= fileSize;
    reply := ChunkReply(hexData, done);
    ServeInside(file, offset, size);
  }

  /** The reply of `get_audio_chunk` given the store after the
      cache-or-encode step. */
  function ChunkAfter(ensured: (Option<string>, map<string, seq<Byte>>), offset: int, size: int): ChunkReply {
    var (path, files) := ensured;
    if path.None? || path.value !in files then EmptyFinal
    else ServeChunk(files[path.value], offset, size)
  }

  /** The on-disk cache of the backend. */
  class FileStore {
    var files: map<string, seq<Byte>>

    constructor(initial: map<string, seq<Byte>>)
      ensures files == initial
    {
      files := initial;
    }

    /** `ensure_dfpwm_ready(video_id, channel)`. */
    method EnsureDfpwmReady(videoId: string, channel: Option<string>, ffmpeg: Ffmpeg)
      returns (path: Option<string>)
      modifies this
      ensures (path, files) == Ensured(old(files), videoId, channel, ffmpeg)
    {
      var dfpwmFile := DfpwmPath(videoId, channel);
      if dfpwmFile in files {
        return Some(dfpwmFile);
      }
      var audioFile := LocateSource(files, videoId);
      if audioFile.None? {
        return None;
      }
      var pcmFile := PcmPath(videoId, channel);
      var panFilter := PanFilter(channel);
      var pcm := ffmpeg(files[audioFile.value], panFilter);
      if pcm.None? {
        return None;
      }
      files := files[pcmFile := pcm.value];
      var encoded := DfpwmEncoder.EncodePcm(files[pcmFile]);
      files := files[dfpwmFile := encoded];
      if pcmFile in files {
        files := files - {pcmFile};
      }
      path := Some(dfpwmFile);
    }

    /** `get_audio_chunk(video_id, offset, size, channel)`: make sure the
      stream is encoded, then serve the requested range of it. */
    method GetAudioChunk(videoId: string, offset: int, size: int, channel: Option<string>, ffmpeg: Ffmpeg)
      returns (reply: ChunkReply)
      modifies this
      ensures (old(files) != files) ==> DfpwmPath(videoId, channel) !in old(files)
      ensures files == Ensured(old(files), videoId, channel, ffmpeg).1
      ensures reply == ChunkAfter(Ensured(old(files), videoId, channel, ffmpeg), offset, size)
    {
      ghost var ensured := Ensured(files, videoId, channel, ffmpeg);
      if DfpwmPath(videoId, channel) in files {
        CachedIsReused(files, videoId, channel, ffmpeg);
      }
      var dfpwmFile := EnsureDfpwmReady(videoId, channel, ffmpeg);
      assert (dfpwmFile, files) == ensured;
      if dfpwmFile.None? || dfpwmFile.value !in files {
        return EmptyFinal;
      }
      reply := ReadChunk(files[dfpwmFile.value], offset, size);
    }
  }
}
