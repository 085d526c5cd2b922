# Audio delivery and metadata core of the CC:Tweaked YouTube Music bridge

This project models, in Dafny, the backend that lets an in-game computer
play YouTube Music. It covers the audio delivery path of
`backend/api/audio.py`:

- the chunk server `get_audio_chunk`, which serves a hex-encoded byte range of the cached stream;
- the cache-or-encode step `ensure_dfpwm_ready`: cache naming per (video id, channel), the ffmpeg pan filter, the lookup of the downloaded source audio, and the PCM-to-DFPWM encoding loop.

It also covers the request handlers around that path:

- `extract_video_id`, which appears in four identical copies;
- `process_video`, in its api and backend versions;
- `search_youtube_music`, in both versions, with the yt-dlp fallback;
- `get_playlist` with its yt-dlp fallback;
- `get_lyrics`;
- `rgb_to_cc_color` and `get_artwork`.

Modules:

- `DfpwmEncoder` (`dfpwm_encoder.dfy`): the encoding loop as a method, proved against `Encode`/`Run`, a prefix recursion over the samples.
- `HexCodec` (`hex_codec.dfy`): `bytes.hex()` and its inverse `bytes.fromhex()`.
- `Audio` (`audio.dfy`): the chunk server, naming, pan filter, source locator, and the `FileStore` class. `FileStore` holds the file system as a map from path to bytes.
- `VideoId` (`video_id.dfy`): the two regular expressions as searches for literal prefixes followed by 11 id characters.
- `Artwork`, `Lyrics`, `Search`, `Process`, `Playlist`: one module per handler. Each cache directory is a class over a map.
- `PyValue` (`py_value.dfy`): the dynamic Python values the handlers receive, with truthiness, `in`, `[]`, `.get`, `len`, iteration, `int()` and `float()`.
- `Text` (`text.dfy`): `split`, `join`, `strip` and `replace`.

Every exception that a surrounding `try` catches is the `Raised` outcome. The answers of YouTube Music, yt-dlp, ffmpeg and the HTTP thumbnail requests are parameters.

Behaviours of the code worth knowing, all of which the model keeps:

- The encoder writes ONE WHOLE BYTE per sample (0xFF when the target lies above `charge`, 0x00 otherwise). It packs no bits, so the stream has `floor(n / 2)` bytes for n PCM bytes.
- The target level is `(sample >> 8) & 0xFF`, which is the unsigned high byte of the sample (0..255). The `| 0x80` for negative samples never changes it, and `charge` stays in 0..255.
- `size` is never checked. A size of 0 returns an empty, non-final reply, so a client asking for 0 bytes never finishes. A size of -1 reads to the end of the file. A size below -1 makes `read` raise ValueError, and a size beyond a C `Py_ssize_t` (2^63 - 1) makes it raise OverflowError. A negative offset makes `seek` raise. The handler turns each of these exceptions into the empty final reply.
- Any non-empty channel other than `"left"` selects the right channel. The channel text goes verbatim into the cache file name.
- The colour dictionary of `rgb_to_cc_color` repeats the key (170, 0, 170). Python keeps the key in its first place with the later value, so magenta maps to `'c'` and `'9'` is never produced.
- On a metadata cache hit, both versions of `process_video` `await` the result of `ensure_audio_downloaded`, a plain function that returns None. Awaiting None raises `TypeError`, so the route answers an error and never the cached record (see Findings).
- The audio route does not validate the video id. Ids of other lengths can share a cache file, for example id `a_b` in mono and id `a` on channel `b`.

## Model

| member | source | states |
|---|---|---|
| Audio.ReadCount | backend/api/audio.py:38-39 | after `seek(offset)` inside the file, `read(size)` returns at most `size` bytes and never runs past the end; a size of -1 returns everything up to the end |
| Audio.ServeChunkMeaning | backend/api/audio.py:30-54 | an offset at or past the end, a negative one, or a size that `read` rejects (below -1, or above 2^63 - 1) gives `{"data": "", "done": True}`; otherwise the data has two digits per byte read, `bytes.fromhex` of it gives back exactly the bytes from the offset, and `done` holds exactly when they reach the end |
| Audio.ServeInside | backend/api/audio.py:37-45 | inside the file, with a size that `read` accepts, the reply is the hex of the bytes read, and `done` says whether they reach the end |
| Audio.ChunkAtEnd | backend/api/audio.py:33-45 | for a stream of length L, offset L-1 with size 10 returns exactly the last byte and is final; offset L is empty and final |
| Audio.ChunkFromStart | backend/api/audio.py:37-45 | offset 0 with a size from L up to 2^63 - 1, or a size of -1, returns the whole stream and is final; a size below -1 returns nothing and is final; size 0 returns nothing and is not final |
| Audio.CollectLast | backend/api/audio.py:37-45 | a poll whose size reaches the end delivers the rest of the stream |
| Audio.CollectMore | backend/api/audio.py:37-45 | a poll that does not reach the end delivers exactly `size` bytes, and the client continues right after them |
| Audio.HexOfSplit | backend/api/audio.py:42 | the hex of a suffix is the hex of its first part followed by the hex of the rest |
| Audio.CollectMoreDelivers | backend/api/audio.py:37-45 | a poll before the end delivers the rest of the stream when the later polls do |
| Audio.CollectAtEnd | backend/api/audio.py:33-34 | a client starting at the end collects nothing |
| Audio.CollectDeliversFile | backend/api/audio.py:30-45 | polling from any offset with a fixed positive size of at most 2^63 - 1 until `done` delivers the hex of the rest of the stream, in order, with nothing repeated or skipped |
| Audio.CacheFileNameRoundTrip | backend/api/audio.py:58-61 | for an 11-character id, the cache file name determines the id and the channel (a missing and an empty channel count alike) |
| Audio.CacheFileNameInjective | backend/api/audio.py:58-61 | distinct (11-character id, channel) pairs get distinct cache files, so mono, left and right are cached apart |
| Audio.OtherIdLengthsCanCollide | backend/api/audio.py:58-61 | without the id check, id `a_b` in mono and id `a` on channel `b` share one file name |
| Audio.PcmPathDiffers | backend/api/audio.py:85-92 | the temporary PCM path is never the cache file's path, so removing it keeps the encoded stream |
| Audio.PanFilter | backend/api/audio.py:83-93 | the left filter exactly for channel `"left"`, the right filter exactly for any other non-empty channel, the averaging filter exactly without a channel |
| Audio.FirstSource | backend/api/audio.py:67-72 | the answer exists, it is the candidate of the first extension (m4a, mp3, webm, opus order) whose file exists, and it is None exactly when none exists |
| Audio.LocateSource | backend/api/audio.py:66-76 | the search loop returns the first existing candidate |
| Audio.CachedIsReused | backend/api/audio.py:63-64 | a cached stream is returned untouched, and ffmpeg is not consulted |
| Audio.NotReadyLeavesNoEntry | backend/api/audio.py:74-76 | with no downloaded source, None is returned and no file is created |
| Audio.EncodeThenReuse | backend/api/audio.py:56-149 | after a successful encode the cache file exists, and the next request returns it unchanged whatever the decoder would now do |
| Audio.EncodedContent | backend/api/audio.py:95-143 | the cached stream is the encoding of what ffmpeg produced from the first source file with the channel's pan filter |
| Audio.ReadChunk | backend/api/audio.py:30-54 | the chunk read for an existing file is the chunk-server reply, including the empty final reply when `seek` or `read` raises |
| Audio.FileStore.EnsureDfpwmReady | backend/api/audio.py:56-153 | returned path and new store as `Ensured`: cached, not downloaded, ffmpeg failure (None, nothing created), or encode then remove the PCM file |
| Audio.FileStore.GetAudioChunk | backend/api/audio.py:14-54 | the store changes only when the stream was not cached; it becomes the store after the cache-or-encode step, and the reply is the chunk of the stream that step returns, or empty and final without one (and empty and final when `seek` or `read` raises) |
| DfpwmEncoder.Sample | backend/api/audio.py:122 | `struct.unpack('<h')` lies in -32768..32767 and is negative exactly when the high byte is at least 128 |
| DfpwmEncoder.TargetIsHighByte | backend/api/audio.py:124-126 | the target is exactly the high byte of the sample, and for negative samples it already has its top bit set |
| DfpwmEncoder.StepMeaning | backend/api/audio.py:129-141 | the byte is 0xFF exactly when the target lies above the charge; the charge moves toward the target by at most strength+1 and never past it; strength decays to 0 on target and saturates at 127 off it; ranges are kept |
| DfpwmEncoder.RunShape | backend/api/audio.py:110-143 | after n samples n bytes are written and the state is in range |
| DfpwmEncoder.RunPrefix | backend/api/audio.py:116-143 | later samples never rewrite bytes already written |
| DfpwmEncoder.EncodeLength | backend/api/audio.py:116-119 | one byte per complete two-byte sample; a trailing odd byte produces nothing |
| DfpwmEncoder.EncodeByte | backend/api/audio.py:122-135 | byte k is 0xFF exactly when the high byte of sample k lies above the charge reached after the first k samples |
| DfpwmEncoder.EncodeFullScale | backend/api/audio.py:130-134 | every byte written is 0xFF or 0x00 |
| DfpwmEncoder.StateStaysInRange | backend/api/audio.py:129-141 | starting from zero, strength stays in 0..127 and charge in 0..255 |
| DfpwmEncoder.SilenceEncodesToZeros | backend/api/audio.py:112-143 | an all-zero PCM stream keeps the state at zero and encodes to 0x00 bytes |
| DfpwmEncoder.EncodePcm | backend/api/audio.py:110-143 | the loop writes `Encode(pcm)`: floor(n/2) bytes, each 0xFF or 0x00 |
| HexCodec.Hex | backend/api/audio.py:42 | two digits per byte |
| HexCodec.PairRoundTrip | backend/api/audio.py:42 | the two digits of a byte read back as that byte |
| HexCodec.FromHexHex | backend/api/audio.py:42 | `bytes.fromhex(b.hex()) == b` |
| HexCodec.HexAppend | backend/api/audio.py:42 | the hex of a concatenation is the concatenation of the hexes |
| VideoId.GroupAt | api/search.py:113 | a captured group is a valid 11-character id |
| VideoId.GroupAtIff | api/search.py:113 | at a position there is a group exactly when one alternative matches there |
| VideoId.GroupAtValue | api/search.py:113 | the group is the 11 characters after an alternative that matches |
| VideoId.Search | api/search.py:118 | `re.search` only captures valid ids |
| VideoId.SearchMeaning | api/search.py:117-120 | the search answers with the group at the leftmost matching position, and None exactly when no position matches |
| VideoId.SearchFindsFirst | api/search.py:118 | a search that reaches a match with no earlier match answers with that match |
| VideoId.SearchPatterns | api/search.py:117-120 | a result of the pattern loop is a valid id |
| VideoId.ExtractVideoId | api/search.py:105-122 | an 11-character id is returned as it is, and any result is a valid id |
| VideoId.ExtractFromUrl | api/search.py:111-122 | for a non-id, the first pattern wins wherever it matches, else the second; None exactly when neither matches |
| VideoId.WatchBeatsEarlierEmbed | api/search.py:117-120 | a watch URL wins over an embed URL earlier in the query |
| Artwork.Insert | api/artwork.py:33-50 | a dictionary assignment keeps the length for an existing key and appends a new key |
| Artwork.DistinctKeysUnchanged | api/artwork.py:33-50 | a display without repeated keys builds exactly its pairs |
| Artwork.InsertExisting | api/artwork.py:43-46 | reassigning a present key replaces that entry only |
| Artwork.ThirteenPairs | api/artwork.py:34-46 | the second magenta pair rewrites the first one's value in place |
| Artwork.SixteenPairs | api/artwork.py:33-50 | the literal builds the 15-entry dictionary `CcColors` |
| Artwork.PaletteEntries | api/artwork.py:33-50 | the dictionary as Python builds it is `CcColors`: 15 entries, none of which holds `'9'` |
| Artwork.EntryKeysDiffer | api/artwork.py:33-50 | the dictionary's keys are pairwise different |
| Artwork.NearestIndex | api/artwork.py:52-61 | the index found is a nearest entry, and the first among equally near ones |
| Artwork.NearestIsUnique | api/artwork.py:52-61 | any nearest-and-first entry is the one found |
| Artwork.ClosestEntry | api/artwork.py:52-61 | the running-minimum loop returns the first nearest entry's character, and `'0'` over no entries |
| Artwork.NearestColor | api/artwork.py:30-61 | `rgb_to_cc_color` returns `RgbToCc` |
| Artwork.RgbToCcIsNearest | api/artwork.py:52-61 | the character belongs to a nearest dictionary entry, the first among ties |
| Artwork.NeverNine | api/artwork.py:33-61 | the result is a character of the dictionary, and never `'9'` |
| Artwork.SqDistZero | api/artwork.py:56 | only equal colours are at distance 0 |
| Artwork.ExactMatch | api/artwork.py:52-61 | an entry's own colour is nearest to it when no earlier key equals it |
| Artwork.ExactColorMapsToItself | api/artwork.py:30-61 | a colour of the dictionary maps to its own character |
| Artwork.BlackIsZero | api/artwork.py:34 | black maps to `'0'` |
| Artwork.WhiteIsF | api/artwork.py:49 | white maps to `'f'` |
| Artwork.MagentaIsC | api/artwork.py:43-46 | magenta maps to `'c'` |
| Artwork.Foreground | api/artwork.py:117 | `'0'` exactly when r+g+b > 384, else `'f'` |
| Artwork.RenderRow | api/artwork.py:103-124 | the inner loop builds the row's line: glyphs, foregrounds and backgrounds separated by vertical bars |
| Artwork.Render | api/artwork.py:96-126 | the drawing loops produce the picture: the ten lines joined by newlines |
| Artwork.BackgroundIsDigit | api/artwork.py:116 | a background character is a hexadecimal digit |
| Artwork.FieldsHaveNoSeparators | api/artwork.py:107-124 | no field contains a vertical bar, and no line contains a newline |
| Artwork.PictureLines | api/artwork.py:124-126 | splitting the picture on newlines gives back its ten lines |
| Artwork.LineFields | api/artwork.py:119-124 | splitting a line on the vertical bar gives three 20-character fields, holding the glyph, the foreground and the background of each pixel |
| Artwork.ArtworkStore.GetArtwork | api/artwork.py:63-138 | a cached picture is returned unchanged; otherwise the drawn picture is cached and returned, or `""` is returned and nothing is cached |
| Lyrics.KeptLines | api/lyrics.py:36-41 | never more kept lines than lines |
| Lyrics.Timed | api/lyrics.py:37-46 | one output line per kept line |
| Lyrics.FormatText | api/lyrics.py:34-46 | the text loop yields `TextLyrics`: the k-th kept line at time 3.0·k, never with empty text |
| Lyrics.KeptLinesNonBlank | api/lyrics.py:39-41 | every kept line is non-empty, has no surrounding white space, and is the stripped form of a line |
| Lyrics.KeptLinesAppend | api/lyrics.py:39-46 | keeping lines distributes over concatenation, so a line's time depends only on the non-blank lines before it |
| Lyrics.BlankLineAdvancesNothing | api/lyrics.py:40-46 | a blank line does not advance the time of later lines |
| Lyrics.NonBlankLineIsKept | api/lyrics.py:40-46 | a non-blank line is kept stripped, right after the earlier kept lines |
| Lyrics.ItemLine | api/lyrics.py:49-57 | non-dictionaries and falsy texts are skipped; a kept item's text is `str(text)` and its time is `float(time)`, 0 without `'time'` |
| Lyrics.ItemLinesFromItems | api/lyrics.py:47-57 | never more lines than items, and each line comes from a dictionary item |
| Lyrics.LineItems | api/lyrics.py:49-57 | the line-giving items, in order: every item that gives a line is among them, and only those |
| Lyrics.ItemLinesOkIff | api/lyrics.py:49-57 | formatting the items succeeds exactly when no item's conversion raises |
| Lyrics.ItemLinesKept | api/lyrics.py:47-57 | a successful formatting yields one line per line-giving item, in item order, each that item's line; every dictionary item with a truthy text is one of them |
| Lyrics.ItemLinesRaisedStays | api/lyrics.py:49-57 | once an item's `float()` raises, the whole list raises |
| Lyrics.FormatItems | api/lyrics.py:47-69 | the item loop yields `ItemLines` |
| Lyrics.NoLyricsNoCache | api/lyrics.py:26-27 | missing or falsy lyrics give `[]`, and nothing is cached |
| Lyrics.FetchedByData | api/lyrics.py:29-69 | truthy lyrics are formatted by their type |
| Lyrics.DictWithoutLines | api/lyrics.py:58-60 | a dictionary without `'lines'` gives the empty list, which is cached |
| Lyrics.DictLyricsUseLines | api/lyrics.py:58-69 | a dictionary's `'lines'` are formatted exactly as the same list would be |
| Lyrics.FetchedNeverLonger | api/lyrics.py:34-69 | the output is never longer than the text's lines, the list's items or the items of a dictionary's `'lines'`; a dictionary without `'lines'` gives no line |
| Lyrics.LyricsStore.GetLyrics | api/lyrics.py:9-83 | a cached list is returned unchanged; otherwise the formatted lines are cached and returned, or `[]` is returned and nothing is cached |
| Lyrics.Fetch | api/lyrics.py:20-83 | the body of the `try` yields `Fetched` |
| Search.ArtistOfMeaning | api/search.py:35-38 | no `artists` or an empty list gives "Unknown Artist"; otherwise the first artist's name, or `Raised` when the first artist is not a dictionary |
| Search.DurationOf | api/search.py:28-33 | `duration` if present, else `length` if present, else "?" |
| Search.FormatRecordMeaning | api/search.py:26-45 | non-dictionaries raise, falsy `videoId`s are skipped, and a kept record's track copies id, title (or "Unknown"), duration and artist; a kept record raises exactly when its artist lookup does |
| Search.KeptRecords | api/search.py:26-27 | the kept records are records of the list with a truthy `videoId` |
| Search.FormatAllMeaning | api/search.py:25-45 | formatting succeeds exactly when no record raises, and then yields one track per kept record, in order |
| Search.SkippedRecordChangesNothing | api/search.py:26-27 | a record with a falsy `videoId` changes nothing |
| Search.FormatAllPrefix | api/search.py:25-45 | the tracks of a longer list start with those of its prefix |
| Search.FormatRecords | backend/api/search.py:23-45 | the append loop yields `FormatAll` |
| Search.FormatAllRaisedStays | backend/api/search.py:23-48 | once a record raises, the whole loop raises |
| Search.SearchBackend | backend/api/search.py:8-48 | the backend's search returns `BackendReply` |
| Search.DirectIdQuery | backend/api/search.py:15-18 | an id query returns exactly its placeholder, whatever the service answers |
| Search.RunAttempt | api/search.py:20-47 | one attempt yields its formatted records, or `Raised` |
| Search.SearchApi | api/search.py:6-67 | the api's search returns `ApiReply`: the placeholder, or the retry loop's answer |
| Search.FirstAttemptWins | api/search.py:19-47 | a first attempt that succeeds is the reply, and the fallback is not consulted |
| Search.RetryOutcomes | api/search.py:48-65 | an exception that is not bot detection gives `[]`; bot detection on both attempts ends in the yt-dlp search |
| Search.SearchYtdlp | api/search.py:69-103 | the fallback returns `YtdlpReply` |
| Search.FormatEntryList | api/search.py:90-98 | the fallback's loop yields `FormatEntries` |
| Search.FormatEntriesRaisedStays | api/search.py:90-103 | once an entry raises, the whole loop raises |
| Search.FallbackTracks | api/search.py:91-98 | no more tracks than entries, and each track's id is copied from a truthy entry holding `'id'` |
| Search.FormatEntryMeaning | api/search.py:92-97 | a falsy entry is skipped; a truthy dictionary is kept exactly when it holds `'id'`, with title "Unknown", artist "Unknown Artist" and duration "?" for the keys it lacks; only a truthy non-dictionary whose `'id' in` test does not answer False raises |
| Search.KeptEntries | api/search.py:91-98 | the kept entries, in order: every entry that gives a track is among them, and only those |
| Search.FormatEntriesOkIff | api/search.py:91-98 | the fallback's loop succeeds exactly when no entry raises |
| Search.FormatEntriesKept | api/search.py:90-98 | a successful loop yields one track per kept entry, in order, each that entry's track |
| Process.MetadataOf | api/process.py:147-156 | the record has an `album` exactly when the album is truthy |
| Process.ApiMetadataShape | api/process.py:146-156 | the api's record has the video id, a truthy title, and an album exactly when the album found is truthy |
| Process.NonIntegerLengthIsZero | api/process.py:52-56 | a `lengthSeconds` that `int()` rejects gives duration 0 |
| Process.YtdlpFailureTitle | api/process.py:132-144 | with no title from YouTube Music and yt-dlp raising, the title is "Video {id}" |
| Process.YtMusicTitleSkipsYtdlp | api/process.py:73-74 | a title from YouTube Music makes the yt-dlp answer irrelevant |
| Process.YtdlpKeepsKnownFields | api/process.py:118-130 | the yt-dlp step keeps a known duration, a known artist, a truthy album and the lyrics flag |
| Process.HasLyricsIff | backend/api/process.py:79-84 | `hasLyrics` holds exactly when the answer has a non-None `lyrics` value |
| Process.SongInfoFailureUsesYtdlp | backend/api/process.py:69-76 | when `get_song` raises, the artist is yt-dlp's `artist` when present and "Unknown Artist" when neither `artist` nor `uploader` is, and a missing `album` gives None |
| Process.MetadataStore.ProcessVideoApi | api/process.py:16-172 | reply and new cache as `ApiProcess`: an invalid query is refused and nothing changes; a cache hit answers the error raised by the await and changes nothing; otherwise `ApiMetadata` is cached and returned |
| Process.MetadataStore.ProcessVideoBackend | backend/api/process.py:18-112 | reply and new cache as `BackendProcess`: an invalid query is refused; a cache hit answers the error raised by the await and changes nothing; otherwise `BackendMetadata` is cached and returned, or the error text is returned and nothing is cached |
| Process.ApiRepeatFails | api/process.py:29-34 | as written, after a request for a valid id, a repeated request answers the await's error and leaves the cache as it is; the first request for an uncached id gets its record |
| Process.IntendedApiRepeatIsStable | api/process.py:29-34 | with the cached record returned on a hit, a repeated request gives the same reply and cache, whatever the services now answer |
| Process.BackendRepeatFails | backend/api/process.py:31-36 | as written, once a valid id was answered with its record, a repeated request answers the await's error |
| Process.IntendedBackendRepeatIsStable | backend/api/process.py:31-36 | with the cached record returned on a hit, a request answered with a record gets the same record again, with the cache unchanged |
| Process.YtMusicStep | api/process.py:43-71 | the YouTube Music block yields `FromYtMusic` |
| Process.YtdlpStep | api/process.py:74-144 | the yt-dlp block yields `FromYtdlp` |
| Process.LyricsFlag | backend/api/process.py:79-84 | the lyrics block yields `HasLyrics` |
| Process.ArtistAndAlbum | backend/api/process.py:60-76 | the inner `try`/`except` yields `BackendArtistAlbum` |
| Playlist.TrackOfMeaning | api/playlist.py:25-30 | an item is skipped exactly when it is not examined or lacks the id key; a kept item gives its id and its title, or "Unknown" |
| Playlist.KeptItems | api/playlist.py:25-30 | the kept items are items of the list that give a track |
| Playlist.CollectOkIff | api/playlist.py:25-30 | the loop succeeds exactly when no item raises |
| Playlist.CollectKept | api/playlist.py:25-30 | a successful loop yields one track per kept item, in order |
| Playlist.CollectRaisedStays | api/playlist.py:70-75 | once an item raises, the whole loop raises |
| Playlist.CollectTracks | api/playlist.py:24-30 | the append loop yields `Collect` |
| Playlist.Gather | api/playlist.py:24-35 | the statements after the "not found" test yield `ListingOf` |
| Playlist.GetPlaylistYtdlp | api/playlist.py:49-82 | the fallback returns `YtdlpReply` |
| Playlist.GetPlaylist | api/playlist.py:6-47 | `get_playlist` returns `PlaylistReply` |
| Playlist.ErrorsAreNotFoundOrYtdlp | api/playlist.py:11-47 | every error is "Playlist not found" or the fallback's error text; the bot-detection branch is unreachable |
| Playlist.NotFoundIsFinal | api/playlist.py:21-22 | an empty answer, or one without `tracks`, is "Playlist not found" whatever yt-dlp would say |
| Playlist.YtMusicTracks | api/playlist.py:19-35 | a playlist of dictionary tracks lists exactly its tracks holding `videoId`, in order, each with its own id, under the playlist's `title` or "Playlist" |
| Text.Split | api/lyrics.py:36 | at least one part, and no part contains the separator |
| Text.JoinSplit | api/artwork.py:126 | joining the parts of a split gives back the string |
| Text.SplitJoin | api/artwork.py:124-126 | splitting a join of separator-free parts gives back the parts |
| Text.StripMeaning | api/lyrics.py:40 | `strip()` removes exactly the surrounding white space |
| Text.ReplaceAtEnd | backend/api/audio.py:85 | replacing a border-free suffix ends the result with the replacement |

## Findings

| source | as written | input that shows it | evidently intended | confidence | as-written member | corrected member |
|---|---|---|---|---|---|---|
| api/process.py:30-34 | on a cache hit, `await ensure_audio_downloaded(video_id)` awaits the None returned by a plain function, which raises `TypeError`; the route answers `{"error": ...}` | a second `/api/process` request for any valid id, e.g. `dQw4w9WgXcQ` | return the cached record | high, not executed | Process.ApiRepeatFails | Process.IntendedApiRepeatIsStable |
| backend/api/process.py:32-36 | the same `await` of the plain function's None on a cache hit | a second request for an id whose record the first request cached | return the cached record | high, not executed | Process.BackendRepeatFails | Process.IntendedBackendRepeatIsStable |

## Left out

- ffmpeg is a parameter from (source bytes, pan filter) to the PCM it writes, or None when it exits with an error. The model does not capture its decoding, resampling, or any partial PCM file it leaves behind on failure.
- The file system is a map from path to contents, with atomic writes. Not modelled: partial files, races between concurrent requests, the background download thread, and exceptions while writing the cache file.
- Audio.ServeChunk: a `read` size the machine cannot allocate a buffer for (MemoryError, which the handler would also turn into the empty final reply) is not modelled, because it depends on the memory available; every size from 0 to 2^63 - 1 reads normally in the model. Failures of `os.path.getsize` or `open` on an existing file are not modelled either.
- Exceptions raised by `open` or `write` while encoding are not modelled. Such an exception makes `ensure_dfpwm_ready` return None and may leave a partial cache file.
- YouTube Music (`get_song`, `search`, `get_playlist`), yt-dlp's `extract_info` and the thumbnail HTTP requests are parameters, given as decoded Python values or `Raised`. Not modelled: request options (limits, `playlistend` of 200, cookies, proxies), `rate_limit` sleeps, retry sleeps and the client reset.
- `is_bot_detection_error` is a boolean parameter per attempt. Exception messages (`str(e)`) are a text parameter.
- `int()` and `float()` of a string and `str()` of a non-string are parameters.
- PIL decoding and resizing are a parameter: the resized image, or None when PIL raises.
- The float computation of the brightness character index is a parameter, since it is float arithmetic.
- The foreground test `(r + g + b) / 3.0 > 128` is stated over integers as r+g+b > 384.
- The Euclidean distance is compared as the integer squared distance.
- Artwork.NearestIndex: compares squared distances, not `sqrt` of them as floats. The square root is increasing and keeps distinct squared distances apart for these colours.
- JSON serialisation of the caches is not modelled. A cached value is stored and read back unchanged.
- The audio download `ensure_audio_downloaded` is not part of this model: neither its background thread after a fresh record nor its synchronous run on a cache hit, before the `await` raises. Only the error that follows is modelled, with its text as a parameter.
- Printing is left out. Of `main.py`, only the `/api/process` route's conversion of an exception into `{"error": ...}` is modelled; the other routes and their parameter defaults are not.
- Lyrics times are real numbers, 3.0 per kept line, rather than binary floats.
