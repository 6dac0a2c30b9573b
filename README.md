# Space extractor core in Dafny

This project models the two cooperating halves of a browser extension that turns an HLS
playlist URL into an `.m4a` download.

- **The worker** (`offscreen.js`) works as follows:
  - It resolves the playlist. When the playlist is a master playlist, it picks the variant with the highest `BANDWIDTH`.
  - It reads the segment URIs and `#EXTINF` durations, and refuses encrypted playlists.
  - It downloads each segment under a zero-padded file name.
  - It writes a local media playlist and hands it to the remux engine.
  - It streams the output back to the controller in 4 MiB chunks, between a start and an end message.
  - A small flag machine (`cancelFlag`, `canceledSent`, `currentJobId`, `ffmpegRunning`, `lastTick`) makes sure a conversion sends at most one `JOB_CANCELED`. No `JOB_DONE` follows a cancel that was sent. A watchdog cancels a job after 60 s without progress.
- **The controller** (`background.js`) keeps:
  - one stored job record, and the toolbar badge derived from it;
  - the header-rule set, with the ids 9301 and 9302 switched on during a conversion;
  - a table of save sessions, which collects the worker's chunks and hands the joined file to the downloads API.

  Only `JOB_PROGRESS`, `JOB_CANCELED`, `JOB_DONE` and the progress part of `JOB_SAVE_CHUNK` compare the message's job id with the stored job. `JOB_SAVE_START` and `JOB_SAVE_END` work on the save session of their id alone, and the other messages carry no job id. The controller also has a filter that picks up playlist URLs (`/\.(m3u8)(\?|$)/i`).

## How the model is organised

The modules, one per file:
- `Wrappers`: `Option` and `Result`.
- `Protocol`: the job record, the closed set of runtime messages, and bytes.
- `Text`: JavaScript `trim`, `split`, `join`, `toLowerCase`, `padStart` and `String(n)`.
- `Progress`: the percentage formulas.
- `Chunks`: the 4 MiB split and the concatenation.
- `Playlist`: `parseMedia` and the variant selection of `resolvePlaylist`.
- `Segments`: `guessExt`, the segment names, `toFixed(3)` and `buildLocalM3U8`.
- `Offscreen`: `class Worker`.
- `Background`: `class Controller`.
- `EndToEnd`: the save round trip between the two classes.

How the worker is modelled:
- The worker's module-level variables are fields of `Offscreen.Worker`. Its handlers are methods that append to an `outbox` (the runtime message channel).
- The engine's in-memory file system is a `map` field.
- The download loop and the chunk loop are `while` loops. Their invariants tie the messages sent so far to a specification function (`DownloadReports`, `SaveMessages`).
- What the outside world answers is one `Env` value: playlist texts, the URL constructor, the engine load, the segment responses, the remux result and the file name.
- A cancel that arrives while a conversion waits is an `interrupt` parameter. It names the await point where the cancel is handled.

How the controller is modelled:
- Storage, the badge, the rule set, the save sessions, the outbox and the downloads are fields of `Background.Controller`.
- Each handler is one method that runs to completion.

## Model

| member | source | states |
|---|---|---|
| Text.TrimStartSpec | offscreen.js:289 | the result is a suffix of the input; everything dropped is white space; the result does not start with white space |
| Text.TrimEndSpec | offscreen.js:289 | the result is a prefix of the input; everything dropped is white space; the result does not end with white space |
| Text.TrimSpec | offscreen.js:289 | `trim()` keeps one contiguous slice of the line, drops only white space on both sides, and leaves no white space at either end |
| Text.TrimIdempotent | offscreen.js:289 | trimming twice is trimming once |
| Text.Lower | offscreen.js:228 | `toLowerCase()` on ASCII letters keeps the length, leaves no capital `A`–`Z`, turns each capital into its small letter and keeps every other character |
| Text.LowerIdempotent | offscreen.js:228 | lowering twice is lowering once |
| Text.IndexOf | offscreen.js:228 | the index of the first occurrence of a character: it holds the character and no earlier position does |
| Text.FirstIndexIsUnique | offscreen.js:228 | any position that holds the character with none before it is the one `IndexOf` returns |
| Text.Split | offscreen.js:286 | `split(sep)` yields at least one piece and no piece contains the separator |
| Text.JoinCons | offscreen.js:249 | joining a line in front of at least one more puts exactly one separator between them |
| Text.JoinSplit | offscreen.js:249 | joining the pieces of a split restores the text |
| Text.SplitJoin | offscreen.js:249 | splitting lines that are free of the separator after joining them gives the same lines back |
| Text.NatToString | offscreen.js:128 | `String(i)` is a non-empty run of digits, with no leading zero unless the number is 0, and one digit exactly for numbers below 10 |
| Text.DigitsValueOfNatToString | offscreen.js:128 | the digits of `String(i)` read back as `i` |
| Text.NatToStringLength | offscreen.js:128 | a number below 10^k takes at most k digits |
| Text.LexLessDigits | offscreen.js:128 | on digit strings of equal length, string order is numeric order, in both directions |
| Text.PadStartValue | offscreen.js:128 | `String(i).padStart(w, "0")` is all digits and still reads back as `i` |
| Text.PadStart | offscreen.js:128 | the padded string is as long as the width, or as the input when that is longer |
| Text.PadStartSpec | offscreen.js:128 | the padded string ends with the input and every added character is the pad character |
| Text.LeadingDigitsSpec | offscreen.js:262 | the leading digits are all digits, a prefix of the text, and the longest such prefix |
| Progress.Round | offscreen.js:133 | `Math.round` gives the integer within half a unit below or at the value, rounding halves up |
| Progress.RoundMonotone | offscreen.js:133 | rounding does not decrease |
| Progress.Clamp | offscreen.js:33 | the result lies in [lo, hi]; a value inside is kept; a value below or above is replaced by the nearer bound |
| Progress.DownloadPercent | offscreen.js:133 | the download percentage `min(80, round(i / N * 80))` lies in [0, 80] |
| Progress.DownloadPercentMonotone | offscreen.js:133 | the download percentage does not decrease as the index grows |
| Progress.DownloadPercentHalfway | offscreen.js:133 | halfway through any even number of segments the percentage is 40 |
| Progress.SavePercent | offscreen.js:203-206 | the save percentage lies in [90, 98] and is 98 once the last chunk is sent |
| Progress.SavePercentMonotone | offscreen.js:203-206 | the save percentage does not decrease with the bytes sent |
| Progress.RemuxPercent | offscreen.js:73 | the remux percentage is at most 98, and at least 80 for a non-negative ratio |
| Progress.SaveChunkPercent | background.js:202-212 | the controller's save percentage lies in [98, 99] and is 99 once all bytes arrived |
| Progress.SaveChunkPercentMonotone | background.js:202-212 | the controller's save percentage does not decrease with the bytes received |
| Progress.Truncate | background.js:47 | `parseInt` of a number truncates toward zero, for positive and negative values |
| Progress.BadgePercent | background.js:47 | the badge number is at most 99, the integer part of a progress in [0, 100), 0 below 1 and 99 from 99 on |
| Chunks.ChunkCount | offscreen.js:191 | the loop runs `ceil(total / 4 MiB)` times: enough chunks to cover the data, not one more, and none for empty data |
| Chunks.ChunkOffsets | offscreen.js:191 | chunk `k` starts inside the data exactly when `k` is below the chunk count |
| Chunks.Chunk | offscreen.js:193-194 | every chunk holds between 1 byte and 4 MiB |
| Chunks.FlattenSnoc | background.js:196 | appending a chunk appends its bytes to the concatenation |
| Chunks.ChunkSizes | offscreen.js:191-194 | every chunk but the last holds exactly 4 MiB; the last holds at most 4 MiB and ends at the end of the data |
| Chunks.FlattenPrefix | offscreen.js:191-194 | the first `n` chunks concatenate to the first `min(total, n * 4 MiB)` bytes: they cover the data contiguously and in order |
| Chunks.FlattenChunks | offscreen.js:191-194 | concatenating all chunks gives back the data |
| Chunks.NoChunksForEmpty | offscreen.js:191 | empty output produces no chunks |
| Playlist.LeadingDecimalSpec | offscreen.js:291 | `[\d.]+` takes the longest prefix of digits and dots |
| Playlist.DecimalValueScaled | offscreen.js:292 | a number with whole digits and fraction digits has the value of all its digits divided by 10 to the power of the fraction length |
| Playlist.ExtinfIsNotUri | offscreen.js:290-293 | an `#EXTINF:` line is never taken for a segment URI |
| Playlist.ExtinfDurationSpec | offscreen.js:290-292 | an `#EXTINF:` line without a number after the colon yields 10.0; otherwise it yields the value of its leading number |
| Playlist.UriDurations | offscreen.js:293-296 | one duration per segment line read so far |
| Playlist.ResolveAll | offscreen.js:294 | one resolved URL per segment line |
| Playlist.ResolveAllSnoc | offscreen.js:294 | resolving one more line appends its URL and keeps the earlier ones |
| Playlist.ParseMedia | offscreen.js:276-299 | a text containing `#EXT-X-KEY` in any case fails before any segment is read; otherwise the result succeeds exactly when the base URL parses and every segment line resolves; on success, segments and durations are those of the lines in order and have equal length |
| Playlist.ScanMedia | offscreen.js:286-298 | the loop yields the resolved segment lines and their durations, or the URL error exactly when some line does not resolve |
| Playlist.ScanLine | offscreen.js:289-296 | one line of the loop extends the segments, the durations and the last duration as the scan of one more line does, or reports the line that does not resolve |
| Playlist.ScanNext | offscreen.js:288-297 | a segment line adds itself with the last duration seen; any other line adds nothing; an `#EXTINF` line replaces the last duration |
| Playlist.UriStepOther | offscreen.js:293 | a blank or `#` line adds no segment |
| Playlist.UriStepUri | offscreen.js:293-296 | a segment line adds exactly one segment with the current duration |
| Playlist.DurationStepExtinf | offscreen.js:290-292 | an `#EXTINF` line sets the duration for the segments after it |
| Playlist.DurationStepOther | offscreen.js:290-292 | other lines leave the duration unchanged |
| Playlist.TagsOnly | offscreen.js:293 | lines that are all blank or tags yield no segments |
| Playlist.UriScansPrefix | offscreen.js:288-297 | reading more lines only extends the segments and durations |
| Playlist.UriLineEntry | offscreen.js:293-296 | every segment line appears in the result, at the position given by the segment lines before it, with the duration in force at that line |
| Playlist.UriEntryLine | offscreen.js:293-296 | every result entry comes from a segment line of the text |
| Playlist.UriEntriesInTextOrder | offscreen.js:293-296 | a segment line comes before every later line's segments: the result keeps text order |
| Playlist.NoExtinfMeansDefault | offscreen.js:287 | segments with no `#EXTINF` before them get 10.0 |
| Playlist.LastExtinfWins | offscreen.js:290-292 | a segment gets the duration of the nearest `#EXTINF` line above it |
| Playlist.FirstNumberAttrAtIsLeftmost | offscreen.js:262 | the bandwidth attribute found is the leftmost `BANDWIDTH=<digits>` match, and none is reported when there is no match |
| Playlist.ResolveVariants | offscreen.js:265 | one variant per recorded reference |
| Playlist.CollectVariants | offscreen.js:256-268 | the loop records the resolved variants in line order, or the URL error exactly when a recorded reference does not resolve |
| Playlist.CollectStep | offscreen.js:259-267 | one line of the loop appends the variants the scan of one more line adds |
| Playlist.VariantOfLine | offscreen.js:260-267 | the variant a line adds is resolved, or the URL error exactly when its reference does not resolve |
| Playlist.VariantRefsFail | offscreen.js:265 | one reference that does not resolve makes the whole selection fail |
| Playlist.ResolveVariantsAppend | offscreen.js:265 | resolving two runs of references is resolving each run |
| Playlist.VariantRefEntry | offscreen.js:261-266 | a `#EXT-X-STREAM-INF` line followed by a non-empty, non-comment line records that next line with the line's bandwidth |
| Playlist.VariantRefsPrefix | offscreen.js:259-268 | reading more lines only extends the recorded variants |
| Playlist.VariantRefsNext | offscreen.js:259-267 | the variants after one more line are those before it plus what that line records |
| Playlist.FirstMaxIndex | offscreen.js:269-270 | the first variant with the highest bandwidth: no variant has more and every earlier one has less |
| Playlist.InsertByBandwidth | offscreen.js:269 | inserting into the sorted list adds exactly that variant |
| Playlist.SortByBandwidth | offscreen.js:269 | the sort is a permutation of the variants |
| Playlist.InsertKeepsDescending | offscreen.js:269 | inserting keeps bandwidths descending and puts a new variant before every existing one of equal bandwidth |
| Playlist.SortByBandwidthSpec | offscreen.js:269 | the stable sort by descending bandwidth is descending and its head is the first variant of highest bandwidth |
| Playlist.ChooseVariantIsFirstMax | offscreen.js:269-270 | the chosen URL is that of the first highest-bandwidth variant, or the master URL when that URL is empty |
| Playlist.SelectMediaUrl | offscreen.js:256-273 | a text without `#EXT-X-STREAM-INF` is its own media playlist; otherwise the URL of the first highest-bandwidth recorded variant, or the master URL when no variant was recorded; the URL error exactly when a reference does not resolve |
| Playlist.PlaylistOf | offscreen.js:252-274 | a resolved playlist has one duration per segment |
| Playlist.ResolvePlaylist | offscreen.js:252-274 | the method returns what the functional definition of fetching, choosing and parsing returns, with one duration per segment |
| Segments.GuessExt | offscreen.js:227-234 | the extension is always one of `.aac`, `.m4s`, `.mp4`, `.ts`, and any but `.ts` is the real ending of the path |
| Segments.GuessExtMatchesEnding | offscreen.js:227-234 | each of `.aac`, `.m4s`, `.mp4` is chosen exactly when the path ends with it; `.ts` is chosen exactly when it ends with none of them |
| Segments.GuessExtIgnoresQuery | offscreen.js:228 | the query string does not change the extension |
| Segments.LowerSplitHead | offscreen.js:228 | lowering before or after cutting at the first `?` gives the same path |
| Segments.GuessExtIgnoresCase | offscreen.js:228 | URLs that differ only in letter case get the same extension |
| Segments.SegmentName | offscreen.js:128 | a segment name starts with `seg_` and ends with the extension of its URL |
| Segments.SegmentNameIndex | offscreen.js:128 | the digits between `seg_` and the extension read back as the index |
| Segments.IndexTextBelowLimit | offscreen.js:128 | below 100000 the index is written with exactly five digits that read back as the index |
| Segments.SegmentNamesOrdered | offscreen.js:128 | below 100000, names of lower indices sort first, whatever the extensions |
| Segments.SegmentNamesDistinct | offscreen.js:128 | below 100000, different indices give different names |
| Segments.MillisIsNearest | offscreen.js:245 | `toFixed(3)` writes a value within half a thousandth of the duration |
| Segments.ToFixed3IsDecimal | offscreen.js:245 | `toFixed(3)` writes only digits and a dot |
| Segments.DecimalTextValue | offscreen.js:245 | `<digits>.<digits>` reads back as its decimal value |
| Segments.ThousandthsReadsBack | offscreen.js:245 | a count of thousandths written with a dot reads back as that count divided by 1000 |
| Segments.ToFixed3ReadsBack | offscreen.js:245 | the written duration reads back as the rounded duration |
| Segments.EntryLines | offscreen.js:243-247 | two lines per file |
| Segments.BuildLocalM3U8 | offscreen.js:236-250 | the loop's text is the local playlist's lines joined by newlines |
| Segments.EntryLinesAt | offscreen.js:243-247 | entry `i` is the `#EXTINF:<d>,` line of file `i`, with `d` = 10.0 when its duration is missing or not a number, followed by the file name |
| Segments.LocalLinesShape | offscreen.js:236-250 | the playlist has the four header lines, then one `#EXTINF` line and one file line per file in order, then `#EXT-X-ENDLIST` |
| Segments.SegmentNameIsPlain | offscreen.js:128 | a segment name is a valid URI line: no line break, no leading `#`, no white space at either end |
| Segments.PrefixStartsPlain | offscreen.js:128 | `seg_` starts with neither `#` nor white space and has no line break |
| Segments.ExtEndsPlain | offscreen.js:229-233 | an extension does not end with white space and has no line break |
| Segments.TagIsNotUri | offscreen.js:293 | a line starting with `#` is never a segment line |
| Segments.ExtinfLineReadsBack | offscreen.js:245 | a written `#EXTINF` line is already trimmed, is an `#EXTINF` line, and reads back as the rounded duration |
| Segments.LocalLinesAt | offscreen.js:237-248 | the local playlist has 2n + 5 lines, with the `#EXTINF` line of file `i` at 4 + 2i and the file at 5 + 2i |
| Segments.HeaderScan | offscreen.js:237-242 | the four header lines yield no segment |
| Segments.EntryScan | offscreen.js:245-246 | an `#EXTINF` line and a plain file line read back as that file with that duration |
| Segments.EntriesScan | offscreen.js:243-247 | the first `n` entries read back as the first `n` files and durations |
| Segments.EntriesStep | offscreen.js:243-247 | reading one more entry adds its file and duration |
| Segments.LocalPlaylistReadsBack | offscreen.js:236-250 | the playlist text splits back into its lines, and parsing it as a media playlist gives back the file names in order with the durations written for them |
| Segments.LocalScan | offscreen.js:236-250 | parsing the local playlist's lines gives back the file names and the written durations |
| Segments.EndlistStep | offscreen.js:248 | the final `#EXT-X-ENDLIST` adds no segment |
| Segments.EndlistIsNotUri | offscreen.js:248 | `#EXT-X-ENDLIST` is not a segment line |
| Segments.LocalEntries | offscreen.js:243-248 | the local playlist has the header, one entry per file, and ends with `#EXT-X-ENDLIST` |
| Segments.LinesHaveNoBreak | offscreen.js:236-250 | no line of the local playlist contains a newline, so joining and splitting keep the lines |
| Segments.FixedLinesHaveNoBreaks | offscreen.js:238-248 | the header and end tags contain no newline |
| Segments.ExtinfLineHasNoBreak | offscreen.js:245 | an `#EXTINF` line contains no newline |
| Segments.EntryLinesHaveNoBreaks | offscreen.js:243-247 | no entry line contains a newline |
| Offscreen.CancelMessages | offscreen.js:99-101 | a cancel sends one `JOB_CANCELED` for the current job exactly when a job is current and no cancel was sent, and nothing otherwise |
| Offscreen.CancelStep | offscreen.js:86-104 | after a cancel, the cancel flag is set and no job is current; the cancel is recorded as sent exactly when it was sent before or is sent now; a running engine is exited and a stopped one kept; a second cancel sends nothing |
| Offscreen.RepeatedCancels | offscreen.js:86-104 | any number of cancels in a row send what the first one sends: at most one `JOB_CANCELED` |
| Offscreen.ReportedPercent | offscreen.js:33 | a percentage in [0, 100] is reported unchanged |
| Offscreen.DownloadReportsSpec | offscreen.js:132-136 | after `k` segments, one report was sent per index divisible by 10, for index `10j` in order |
| Offscreen.DownloadReportsRise | offscreen.js:132-136 | the download reports are progress messages whose percentages lie in [0, 80] and do not decrease |
| Offscreen.SaveMessagesSpec | offscreen.js:191-210 | the save stream alternates chunk `k` (with the total size) and a report of this job with a percentage in [90, 98] |
| Offscreen.SaveReportsRise | offscreen.js:203-207 | the save percentages do not decrease from chunk to chunk |
| Offscreen.SegmentNames | offscreen.js:128-130 | one name per segment |
| Offscreen.SegmentNamesSnoc | offscreen.js:128-130 | downloading segment `i` appends its name to the names so far |
| Offscreen.WithSegmentsSnoc | offscreen.js:129 | writing segment `i` into the file system extends the files written so far by that one |
| Offscreen.Worker.constructor | offscreen.js:3-10 | the worker starts with no engine, no job, no flags set, `lastTick` at load time and nothing sent |
| Offscreen.Worker.Send | offscreen.js:38-42 | a message is appended; `JOB_DONE` is counted once |
| Offscreen.Worker.Progress | offscreen.js:27-37 | `progress()` sends the percentage clamped to [0, 100] and sets `lastTick` to now |
| Offscreen.Worker.Canceled | offscreen.js:43-46 | `canceled()` sends `JOB_CANCELED` and records it as sent |
| Offscreen.Worker.HandleCancel | offscreen.js:86-104 | `handleCancel` sets the cancel flag, clears the current job, sends `JOB_CANCELED` only if a job was current and none was sent, exits a running engine (dropping its files), and keeps at most one `JOB_CANCELED` per conversion |
| Offscreen.Worker.OnOffscreenCancel | offscreen.js:22-24 | `OFFSCREEN_CANCEL` runs `handleCancel`: the cancel flag is set, no job stays current, `JOB_CANCELED` is sent once at most, and a running engine is exited with its files |
| Offscreen.Worker.WatchdogAfterEnd | offscreen.js:78-83 | a conversion that succeeds with no cancel leaves its job current, so a watchdog tick more than 60 s after it sends `JOB_CANCELED` for that job as the last message and clears the job |
| Offscreen.Worker.WatchdogTick | offscreen.js:78-83 | the 5-second check cancels exactly when a job is current and more than 60 s passed since the last report, with the effect of `handleCancel` on the flags, the messages and the engine's files, and otherwise changes nothing |
| Offscreen.Worker.EnsureEngine | offscreen.js:48-84 | an existing engine is kept; otherwise a new one is created and, if it loads, installs the hooks, and a failed load leaves a created but unloaded engine |
| Offscreen.Worker.OnRemuxRatio | offscreen.js:72-76 | the ratio callback records a percentage in [80, 98] and reports it |
| Offscreen.Worker.OnEngineLog | offscreen.js:60-71 | an engine log line is forwarded trimmed, with the current job and percentage, exactly when it carries a progress marker |
| Offscreen.Worker.OnOffscreenConvert | offscreen.js:12-21 | a conversion sends at most one `JOB_CANCELED`; a failure sends one `JOB_DONE` exactly when no cancel was sent, and never both; with no cancel and everything succeeding, the conversion sends exactly the first report, the download reports, the remux report and the save stream, and leaves the engine loaded and its file system as the segments written, unlinked again and the output added; with no cancel the job stays current and no cancel is recorded; a cancel during the remux drops the engine and its files; the last report is at `now` |
| Offscreen.Worker.Settle | offscreen.js:16-20 | a failed conversion sends `JOB_DONE` with its error exactly when no cancel was sent; otherwise nothing is sent |
| Offscreen.Worker.Convert | offscreen.js:14-16 | the listener clears both cancel flags and runs `convert` (offscreen.js:106-217); with no cancel, the conversion either sends exactly the full message sequence for the resolved playlist and leaves the engine loaded with the segments unlinked and the output added, or fails; it succeeds whenever the playlist resolves to segments, the engine loads, every segment downloads and the remux succeeds |
| Offscreen.Worker.Start | offscreen.js:14-15 | both cancel flags are cleared and the conversion starts with nothing sent for it |
| Offscreen.Worker.Begin | offscreen.js:107-111 | the conversion makes the job current, reports 0 %, and resolves the playlist as the functional definition does; a cancel during the fetch sets the cancel flag |
| Offscreen.Worker.Pipeline | offscreen.js:113-217 | after the playlist, the worker sends the download reports, the remux report and the save stream, leaving the engine loaded and its file system as the segment files written, unlinked again and the output added; it succeeds whenever nothing cancels and every step succeeds; a cancel during the remux drops the engine and its files |
| Offscreen.Worker.Download | offscreen.js:113-137 | the download phase sends exactly the reports for every tenth segment, leaves the engine loaded with every segment written under its name (onto an empty file system when the engine is new), and succeeds whenever nothing cancels, the engine loads and every segment is fetched |
| Offscreen.Worker.Finish | offscreen.js:139-217 | the remux and save phase sends the remux report and the save stream and leaves the output in place of the segment files and the local playlist; it succeeds whenever nothing cancels and the remux succeeds; a cancel during the run drops the engine and its files |
| Offscreen.Worker.DownloadSegments | offscreen.js:118-137 | the loop stops where the functional definition stops; the names are the first segment names; the file system holds exactly those segments; the reports are those of the downloaded segments; a cancel during a fetch is handled once |
| Offscreen.Worker.DownloadSegment | offscreen.js:118-136 | one iteration: a set cancel flag stops it; an abort cancels the job; otherwise the fetch outcome decides, and a success stores the segment and reports on every tenth index |
| Offscreen.Worker.SegmentGate | offscreen.js:119-125 | a set cancel flag fails the iteration at once; an abort during the fetch runs the cancel and fails it; otherwise nothing changes |
| Offscreen.Worker.FetchSegment | offscreen.js:122-136 | a failed or unsuccessful fetch fails with the segment error and writes nothing; a success stores the segment and reports on every tenth index |
| Offscreen.Worker.StoreSegment | offscreen.js:127-136 | the segment is written under its name, the name appended, and a report sent with the download percentage exactly when the index is divisible by 10 |
| Offscreen.Worker.Remux | offscreen.js:139-177 | a set cancel flag stops after writing the local playlist; a cancel during the run exits the engine, drops its files and fails; otherwise the remux report is sent and the run's outcome decides, a success adding the output file and unlinking every segment file and `local.m3u8` |
| Offscreen.Worker.Cleanup | offscreen.js:168-175 | every segment file, then `local.m3u8`, is unlinked, and every other file is kept |
| Offscreen.Worker.WriteLocalPlaylist | offscreen.js:139-140 | `local.m3u8` is written with the local playlist |
| Offscreen.Worker.RunEngine | offscreen.js:144-166 | the remux report is sent and the engine runs; a cancel during the run exits the engine, drops its files and fails the run |
| Offscreen.Worker.Save | offscreen.js:179-216 | with no cancel, the worker sends exactly the save stream: the start with the file name and type, every chunk with its report, and the end; a cancel in the pause after chunk `k` sends `JOB_CANCELED` there and stops the stream, unless `k` is the last chunk, in which case the end is still sent, after the `JOB_CANCELED` |
| Offscreen.Worker.SendChunks | offscreen.js:191-210 | the chunk loop sends the messages of every chunk in order, or stops after the chunk where a cancel arrives |
| Offscreen.Worker.SendChunk | offscreen.js:192-209 | one iteration sends the messages of chunk `k`; a cancel in the pause after it runs the cancel |
| Offscreen.Worker.EmitChunk | offscreen.js:193-208 | a chunk is sent, then the save report |
| Offscreen.DownloadStop | offscreen.js:118-137 | the download stops at or after its start, with no failure exactly when every segment was downloaded, and at once when the cancel flag was already set |
| Offscreen.DownloadStopSpec | offscreen.js:118-137 | every segment before the stop had no abort and no failure; an early stop reports the abort or the segment's failure |
| Offscreen.UnlinkedSpec | offscreen.js:168-175 | unlinking keeps exactly the files whose names are not in the list, with their contents |
| Offscreen.UnlinkedDropsKey | offscreen.js:168-175 | a file that the unlinking removes anyway may be overwritten beforehand without effect |
| Offscreen.LocalPlaylistUnlinked | offscreen.js:139-175 | writing `local.m3u8` before the run leaves no trace once the cleanup unlinks it |
| Offscreen.DownloadCompletes | offscreen.js:118-137 | with a loaded engine, no cancel and every segment fetched, every segment is downloaded |
| Background.WithConvertRules | background.js:67-72 | enabling leaves 9301 and 9302 on and every other rule as it was |
| Background.WithoutConvertRules | background.js:73-78 | disabling removes 9301 and 9302 and keeps every other rule |
| Background.Purged | background.js:58-66 | the purge removes every id in [8000, 10000) and keeps every other rule |
| Background.DisableIdempotent | background.js:73-78 | disabling twice is disabling once, and disabling after enabling is disabling |
| Background.EnableIdempotent | background.js:67-72 | enabling twice is enabling once |
| Background.PurgeDisables | background.js:58-78 | the purge removes the conversion rules too |
| Background.StoredJob | background.js:40-43 | `getJob` gives the idle placeholder without an id when nothing is stored, and the stored job otherwise |
| Background.BadgeText | background.js:46-53 | a running job shows one or two digits whose value is its clamped, truncated progress; an error shows `!`; every other status shows nothing |
| Background.LogTail | background.js:159 | the tail keeps the last 60 lines, or all of them when there are fewer, in order |
| Background.LogTailPush | background.js:157-160 | pushing a line onto a tail of at most 60 keeps at most 60 lines, ends with the new line, and drops only the oldest line when full |
| Background.WithProgress | background.js:153-161 | the progress is set; a log line is appended to the tail, dropping the oldest when 60 are kept; no log keeps the tail; nothing else changes |
| Background.Done | background.js:252-258 | the job is finished exactly when ok, with the output file name, and error otherwise, with the message; the end time is set and the rest is kept |
| Background.SessionStepValid | background.js:183-197 | every session's byte count stays equal to the bytes of its chunks; a chunk for an open session is appended after the earlier ones |
| Background.M3u8PathAccepted | background.js:36 | a path ending in `.m3u8` in any case is detected, with or without a query string |
| Background.M3u8IgnoresCase | background.js:36 | detection ignores letter case |
| Background.Controller.constructor | background.js:149 | the controller starts with nothing stored, auto-detect off, no sessions and nothing sent |
| Background.Controller.SetJob | background.js:44-55 | `setJob` stores the job, sets the badge from it and sends `JOB_UPDATE` |
| Background.Controller.PurgeAnyDnr | background.js:58-66 | the rules lose every id in [8000, 10000) unless the browser rejects the update |
| Background.Controller.EnableDnrForConvert | background.js:67-72 | the conversion rules are switched on |
| Background.Controller.DisableDnr | background.js:73-78 | the conversion rules are switched off |
| Background.Controller.OnInstalled | background.js:94-99 | installing turns auto-detect off, forgets the last URL, stores the idle job with an empty badge and purges the rules |
| Background.Controller.OnStartup | background.js:100-102 | start-up purges the rules |
| Background.Controller.OnSetEnabled | background.js:106-111 | `SET_ENABLED` sets the auto-detect switch |
| Background.Controller.OnJobGet | background.js:112-115 | `JOB_GET` answers the stored job, or the idle placeholder |
| Background.Controller.OnConvertM4a | background.js:116-138 | `CONVERT_M4A` always overwrites the stored job with a fresh running one at 0 % with an empty log, switches the rules on and sends `OFFSCREEN_CONVERT` |
| Background.Controller.OnJobCancel | background.js:139-144 | `JOB_CANCEL` sends `OFFSCREEN_CANCEL` and switches the rules off |
| Background.Controller.OnJobProgress | background.js:153-162 | a report for another job changes nothing; otherwise the progress is set and a log line appended, keeping the last 60 |
| Background.Controller.OnJobCanceled | background.js:165-180 | a cancel for another job changes nothing, the badge included; otherwise the job becomes canceled with its end time, the badge is cleared, the rules are switched off and its save session dropped |
| Background.Controller.OnSaveStart | background.js:183-191 | a save start opens an empty session with the file name and the type, `audio/mp4` when none is given |
| Background.Controller.OnSaveChunk | background.js:192-216 | a chunk without a session is ignored; otherwise its bytes are appended to the session, and a matching stored job gets a progress in [98, 99], its badge and a `JOB_UPDATE`; otherwise the job, badge and messages stay |
| Background.Controller.ShowSaveProgress | background.js:199-214 | a matching stored job gets the save percentage of the bytes received, the badge for it and a `JOB_UPDATE`; another job is left alone with its badge |
| Background.Controller.OnSaveEnd | background.js:217-249 | a save end without a session does nothing; otherwise the session is closed on both paths, the joined chunks are downloaded under its name and type, exactly one `JOB_DONE` is sent (ok with the name, or the error), and the rules are switched off |
| Background.Controller.OnJobDone | background.js:252-267 | a result for another job changes nothing; otherwise the job becomes finished (with the output name) exactly when ok, and error otherwise, and the rules are switched off |
| Background.Controller.OnRequestCompleted | background.js:271-294 | with auto-detect on, a `.m3u8` URL becomes the last URL and is announced, and an idle job takes it as its URL with an empty badge; a busy job and its badge stay; otherwise nothing changes |
| EndToEnd.ReplayAppend | background.js:151-249 | handling two runs of messages one after the other is handling them together |
| EndToEnd.ReplayChunk | background.js:192-197 | a chunk and its report add exactly that chunk to the session |
| EndToEnd.ReplaySaveMessages | background.js:183-197 | after the start and `k` chunks, the session holds exactly the first `k` chunks in order, under the file name and type |
| EndToEnd.SaveRoundTrip | offscreen.js:179-216 | the controller's session, fed the worker's save stream, joins back into exactly the worker's output; the end message downloads that file and closes the session |

## Left out

- The network is an input (`Env.fetchText`, `Env.fetchSegment`). This covers `fetch`, the `credentials` option and `AbortController`; an aborted fetch is the error it raises.
- The URL constructor is an opaque function (`Playlist.UrlApi`).
- The remux engine (ffmpeg.wasm) is an input. Its load outcome and its run outcome are parameters. Its file system is a `map` field. Exiting it drops the engine and its files. Its fixed argument list and its internals are not modelled.
- The ratio band of the remux report is modelled exactly. Its use of floating point is not.
- The removal of the segment files and `local.m3u8` after the run (offscreen.js:168-175) is modelled (`AfterRemux`). A failure of that removal, which the source swallows, is not modelled. It cannot affect the messages.
- The clock, the 5-second interval and `requestAnimationFrame` are modelled as follows:
  - `now` is a parameter.
  - The watchdog check is a method the caller invokes.
  - The yield between chunks is the only point where a cancel can arrive during the save.
- `crypto.randomUUID` and `makeFilename` are parameters: the job id, and `Env.filename`.
- Interleaving: each handler runs to completion. A cancel during a conversion is handled at one await point, named by `interrupt`. Several cancels inside one conversion are covered by `RepeatedCancels`, not by the pipeline.
- Floating point:
  - Durations and percentages are exact reals.
  - `Math.round` is round-half-up on reals.
  - `parseFloat` of `[\d.]+` reads the leading decimal number.
  - `toFixed(3)` is modelled for values below 10^21.
- `chrome.storage` is asynchronous. Storage being modelled as one synchronous field does not capture that. Its JSON serialization is not modelled.
- `parseInt` is modelled on numbers as truncation toward zero. The exponent forms it reads from very large or very small numbers are not modelled.
- The offscreen document itself is not modelled. This covers `ensureOffscreen`, the document creation and transferable buffers.
- The downloads API is a list of downloads, with its failure as a parameter. `Blob` and `URL.createObjectURL` are not modelled.
- Also not modelled:
  - notifications;
  - the badge colour;
  - `sendResponse`;
  - the rule bodies (header edits and URL filters), since the rules are their ids;
  - the host and type filter of the `webRequest` listener.
- The background's own `JOB_DONE` may not be delivered back to itself by the browser. This is not modelled.
- popup.js is not part of this model.
- Progress.SaveChunkPercent: yields 98 for a first chunk of zero bytes with no declared total. There the source computes 0 / 0 and stores NaN as the progress. The worker never sends a chunk for empty output, so this case cannot arise from the worker.
- Text.Lower: lowers the ASCII letters only, where `toLowerCase()` follows Unicode. Its use in `guessExt` (offscreen.js:228) still picks the same extension. Apart from `A`–`Z`, the only characters whose lower case contains an ASCII letter are U+212A (the Kelvin sign, to `k`) and U+0130 (to `i` followed by U+0307). Neither `k`, `i` nor U+0307 occurs in `.aac`, `.m4s` or `.mp4`. The `/i` regular expressions, which Lower also models, fold only ASCII letters onto ASCII letters without the `u` flag.
- Offscreen.Worker.Save: every message is delivered. When `JOB_SAVE_END` cannot be delivered, its `.catch` (offscreen.js:212-214) sends `JOB_DONE` with the failure, even after a `JOB_CANCELED`. That path is not modelled.
- Offscreen.Worker.RunEngine: the engine's log and ratio callbacks (offscreen.js:60-76) send `JOB_PROGRESS` while `ffmpeg.run` is awaited (offscreen.js:147). The model runs them as the separate handlers `OnEngineLog` and `OnRemuxRatio`. The message sequences that `RunEngine`, `Remux`, `Finish`, `Pipeline`, `Convert` and `OnOffscreenConvert` state exactly are those of the conversion itself, without these interleaved reports.
- Playlist.Bandwidth: reads the digits as an exact natural number. `Number(...)` (offscreen.js:262) gives a double, so bandwidths above 2^53 are compared after rounding, and two different ones can tie.
- Offscreen.Worker.OnOffscreenConvert: does not state the `currentPct` a conversion leaves, which is its last download percentage. `Offscreen.Worker.StoreSegment` states it for each segment stored. Its "never both a `JOB_CANCELED` and a `JOB_DONE`" holds because delivery is reliable in the model. The undelivered `JOB_SAVE_END` of offscreen.js:212-214 would break it (see `Offscreen.Worker.Save` above).
- Background.Controller.EnableDnrForConvert: the rule update always succeeds. In `CONVERT_M4A` (background.js:128) a rejected update would throw before `OFFSCREEN_CONVERT` is sent, leaving the stored job `running` at 0 with nothing to advance it. That path is not modelled.
- Background.Controller.DisableDnr: the rule update always succeeds. A rejected update would throw and skip what follows it: in `JOB_CANCELED` the removal of the save session (background.js:171-173), in `JOB_DONE` the notification (background.js:260). `JOB_CANCEL` swallows it (background.js:141). That path is not modelled.
- Playlist.ResolvePlaylist: `Env.fetchText` is a function, so the two fetches of the media playlist URL (offscreen.js:253-255 and offscreen.js:277) get the same answer. A live playlist that changes between them, or a second fetch that fails after the first succeeded, is not represented.

Behaviours of the code worth knowing:
- `CONVERT_M4A` overwrites a running job with a fresh one.
- The download percentage is `Math.round(i / N * 80)`, capped at 80.
- The download percentage is reported only for indices divisible by 10. No report is sent when the download completes.
- The cancel reason (user or stall) is never sent to the controller.
- `currentJobId` is not cleared when a conversion ends. As a result, the watchdog fires more than a minute after the last report of a job that finished its save, and sends `JOB_CANCELED` for it (`Worker.WatchdogAfterEnd`).
- The playlist is fetched again for the media text: once in `resolvePlaylist` and once in `parseMedia`. The model fetches the same URL twice from `Env.fetchText`.
- A failed engine load leaves a created but unloaded engine, which is reused by the next conversion.
- The cancel check after the cleanup (offscreen.js:177) cannot fire, because no cancel can arrive between it and the run. The model omits it.
- Only `JOB_CANCELED` and `JOB_SAVE_END` drop a save session. `JOB_DONE` does not.
