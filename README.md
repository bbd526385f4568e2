# rialto core, modelled in Dafny

This project models the core of `rialto`, a browser media-streaming library. The library is written in TypeScript and is part of the emliri-es-libs repository. The Dafny files model the following parts of it:

- **bytes.dfy** (`BytesReadWrite`): big-endian 16- and 32-bit reads and writes on a byte array. The reads follow JavaScript semantics: shifts work on signed 32-bit integers, bits are combined with a bitwise OR, and a negative result is corrected by adding 2^16 or 2^32. A read past the end of a typed array gives `undefined`, which the OR turns into 0. A write past the end is dropped.
- **isobmff.dfy** (`IsoBmffBox`): the ISO base media file format box walker `findIsoBmffBoxes` and `MpegIsoBmffBox.fromPath`. The walker is a method with a loop and a recursive call. It is specified by the recursive function `Scan`.
- **sidx.dfy** (`DashSidx`): `parseSidxData`, the decoder of the DASH segment index (`sidx`) box.
- **timeranges.dfy** (`BufferedTimeRanges`): `BufferedTimeRange` and `BufferedTimeRangeContainer`.
- **byterange.dfy** (`ByteRanges`): `ByteRange.fromString`, the constructor, and `toHttpHeaderValue`. JavaScript numbers are modelled as integers or NaN.
- **arraybuffer.dfy** (`ArrayBufferUtils`): `copyArrayBuffer` and `copyArrayBuffers`, which copy into a destination `array`.
- **media.dfy** (`AdaptiveMediaModel`): the renditions (`AdaptiveMedia`), their sets and their periods, as classes whose fields are updated in place.
- **hls.dfy** (`HlsM3u8`): `HlsM3u8File` and `HlsM3u8MediaPlaylist`, which turn a parsed M3U8 manifest into renditions and segments.
- **playback.dfy** (`PlaybackStateMachine`): the transition table, the state machine, and the proofs of what the table allows.
- **consumer.dfy** (`AdaptiveMediaClient`): `AdaptiveMediaStreamConsumer` and its scan. A scan starts fetches for the segments that are not loaded and end by the fetch target, at most `MAX_CONCURRENT_FETCH_INIT` of them.
- **sbqueue.dfy** (`SourceBufferQueueModel`): `SourceBufferQueue`, which serialises appends, removes and drops onto a Media Source Extensions `SourceBuffer`. The `SourceBuffer` is a small class that records the calls it receives.
- **common.dfy** (`Common`): `Option`, `Result`, the `byte` type and a sum over reals.

Exceptions are modelled as `Err` results or as explicit outcome constructors. Examples are `Made.Thrown` for a time range and `RunOutcome.EmptyQueueFault` for a shift from an empty queue that is then destructured. Where the code departs from what its comments and messages say, the model follows the code as written. Each such departure is listed under "## Findings" next to a corrected member, or under "## Left out" where the code is not modelled.

Notes on the source's behaviour that the model keeps:

- **findIsoBmffBoxes.** Every matching box is built as `(data, start, data.byteLength)`, where `start` is the start of the search. So a box always views the rest of the buffer, not its own record (`BoxesViewWholeBuffer`).
- **parseSidxData.** The parser reads the version from `data[0]` and the fields at offsets from the start of the buffer. The first referenced byte is the end of the buffer. In section 8.16.3 of ISO/IEC 14496-12 these positions are relative to the box and its anchor point. The model keeps the source's positions, and `earliest_presentation_time` and `first_offset` are taken as 0, as the source does.
- **BufferedTimeRange constructor.** The constructor throws when `end > start`. So every range it builds has a duration of at most 0, and no two such ranges overlap (`ConstructedNeverOverlap`).
- **Transitions without a reason.** A falsy reason, a missing one or the empty string, selects every row leaving the state (`FalsyReasonSelectsAll`). Such a transition succeeds only from ERROR (`ReasonlessOnlyFromError`). With a truthy reason, the table never allows more than one transition (`TableDeterministic`).
- **onUpdateEnd_.** It tries to dispatch once even when the queue is empty. The `shift` then yields `undefined`, and destructuring it throws. The model returns `EmptyQueueFault` for this case.

## Model

| member | source | states |
|---|---|---|
| BytesReadWrite.ReadUint16 | rialto/lib/bytes-read-write.ts:11-16 | the value read is the unsigned big-endian value of the two bytes, in [0, 2^16), with bytes past the end read as 0 |
| BytesReadWrite.ReadUint32 | rialto/lib/bytes-read-write.ts:18-24 | the OR of the shifted bytes, corrected when negative, is the unsigned big-endian value of the four bytes, in [0, 2^32) |
| BytesReadWrite.WriteUint32 | rialto/lib/bytes-read-write.ts:26-31 | exactly the four bytes at the offset change, to the stored bytes of the value; when they fit, reading them back gives the value modulo 2^32 |
| BytesReadWrite.ReadAfterWrite | rialto/lib/bytes-read-write.ts:18-31 | round trip: four bytes stored by the writer read back as the value modulo 2^32 |
| BytesReadWrite.BytesToString | rialto/lib/bytes-read-write.ts:33-35 | one character per byte, whose code is the byte |
| IsoBmffBox.RecordEnd | rialto/lib/mpeg-isobmff-box.ts:36-40 | the next cursor is past the current one: the end of the buffer, or the cursor plus the size read |
| IsoBmffBox.ScanStep | rialto/lib/mpeg-isobmff-box.ts:34-56 | one record of the walk: no match skips it; a match on the last path element adds a box; a match otherwise adds the boxes found by a recursive walk from the record's end |
| IsoBmffBox.FindIsoBmffBoxes | rialto/lib/mpeg-isobmff-box.ts:18-59 | an empty path gives null; otherwise the boxes the walk finds, in order |
| IsoBmffBox.FromPath | rialto/lib/mpeg-isobmff-box.ts:67-70 | the first box found; nothing otherwise: null for an empty path, undefined when nothing matches |
| IsoBmffBox.CursorAdvances | rialto/lib/mpeg-isobmff-box.ts:34-56 | the cursors the walk visits are inside the buffer, start at the first one and strictly increase, each the end of the previous record |
| IsoBmffBox.MatchingStartsAreMatches | rialto/lib/mpeg-isobmff-box.ts:34-47 | a cursor is a match exactly when the walk visits it and its record type is the one searched for |
| IsoBmffBox.SinglePathMatches | rialto/lib/mpeg-isobmff-box.ts:42-47 | a one-element path gives one box per matching record, each the same view of the buffer |
| IsoBmffBox.BoxesViewWholeBuffer | rialto/lib/mpeg-isobmff-box.ts:44-51 | every box found views the buffer to its end, starting at the search start, or past the matching parent record for a nested path |
| IsoBmffBox.ScanEmptyPastEnd | rialto/lib/mpeg-isobmff-box.ts:34 | a walk started at or past the end of the buffer finds nothing |
| DashSidx.CountOffset | rialto/lib/mpeg-dash-sidx.ts:32-52 | the reference count sits at 22 for version 0 and at 38 otherwise |
| DashSidx.ReferenceRoundTrip | rialto/lib/mpeg-dash-sidx.ts:58-70 | a size below 2^31 and a duration stored big-endian in a reference's 8 bytes decode back to that size and duration, with the type bit clear |
| DashSidx.ReferenceInfo | rialto/lib/mpeg-dash-sidx.ts:58 | the reference word is an unsigned 32-bit value |
| DashSidx.SubsegmentDuration | rialto/lib/mpeg-dash-sidx.ts:69 | the subsegment duration is an unsigned 32-bit value |
| DashSidx.ScaledDuration | rialto/lib/mpeg-dash-sidx.ts:76 | the duration in seconds times the timescale is the raw duration; it is missing exactly when the timescale is 0 |
| DashSidx.TopBitRange | rialto/lib/mpeg-dash-sidx.ts:61-62 | the reference type is 0 or 1 and the size is below 2^31 |
| DashSidx.ContiguousStarts | rialto/lib/mpeg-dash-sidx.ts:77-82 | each reference starts at the first byte plus the sizes of all references before it |
| DashSidx.FindSidx | rialto/lib/mpeg-dash-sidx.ts:22-27 | null exactly when the walk finds no `sidx` record; otherwise the box viewing the whole buffer |
| DashSidx.ParseSidxDataAsWritten | rialto/lib/mpeg-dash-sidx.ts:12-101 | null without a `sidx`; with a count of 0 a parse whose references are undefined; a hierarchical first reference gives undefined; any other first reference is pushed onto the undefined list and throws |
| DashSidx.ParseSidxData | rialto/lib/mpeg-dash-sidx.ts:12-101 | with the list initialised: null without a `sidx`, undefined exactly when a reference is hierarchical, otherwise every field decoded, `referencesCount` references each decoded from its slot, laid out back to back from the end of the buffer |
| DashSidx.DecodeReferences | rialto/lib/mpeg-dash-sidx.ts:55-90 | the loop stops exactly on a hierarchical reference, otherwise returns one decoded reference per slot, contiguous from the first byte |
| BufferedTimeRanges.New | rialto/lib/buffered-time-ranges.ts:2-9 | the constructor builds the range exactly when end is not after start, and throws otherwise |
| BufferedTimeRanges.NewIntended | rialto/lib/buffered-time-ranges.ts:2-9 | corrected constructor: builds the range exactly when end is strictly after start, as its message says |
| BufferedTimeRanges.DurationOfConstructed | rialto/lib/buffered-time-ranges.ts:11-16 | against its doc comment, a range the constructor accepts has a duration of at most 0 |
| BufferedTimeRanges.CompareStart | rialto/lib/buffered-time-ranges.ts:23-25 | positive exactly when the other range starts later, zero exactly when the starts are equal |
| BufferedTimeRanges.CompareEnd | rialto/lib/buffered-time-ranges.ts:32-34 | positive exactly when the other range ends later, zero exactly when the ends are equal |
| BufferedTimeRanges.StrictImpliesInclusive | rialto/lib/buffered-time-ranges.ts:42-48 | a time strictly inside is inside |
| BufferedTimeRanges.Contains | rialto/lib/buffered-time-ranges.ts:55-57 | true exactly when the other range lies within this one |
| BufferedTimeRanges.Equals | rialto/lib/buffered-time-ranges.ts:64-66 | true exactly when both bounds agree |
| BufferedTimeRanges.ContainsAntisymmetric | rialto/lib/buffered-time-ranges.ts:55-66 | two ranges contain each other exactly when they are equal |
| BufferedTimeRanges.OverlapBoundaries | rialto/lib/buffered-time-ranges.ts:156-176 | the candidate start is the later start and the candidate end the earlier end |
| BufferedTimeRanges.OverlapsWith | rialto/lib/buffered-time-ranges.ts:73-76 | true exactly when both ranges are proper and their open intervals intersect |
| BufferedTimeRanges.OverlapAndTouchSymmetric | rialto/lib/buffered-time-ranges.ts:73-85 | overlapping, touching and the overlap boundaries do not depend on argument order |
| BufferedTimeRanges.Continues | rialto/lib/buffered-time-ranges.ts:93-95 | true exactly when this range starts where the other ends |
| BufferedTimeRanges.ContinuesTouches | rialto/lib/buffered-time-ranges.ts:83-95 | a continuation touches in both directions |
| BufferedTimeRanges.GetOverlappingRange | rialto/lib/buffered-time-ranges.ts:102-118 | never throws; a range it builds spans the later start to the earlier end |
| BufferedTimeRanges.OverlappingRangeInverted | rialto/lib/buffered-time-ranges.ts:102-118 | as written it gives null exactly when the ranges do overlap |
| BufferedTimeRanges.GetOverlappingRangeIntended | rialto/lib/buffered-time-ranges.ts:97-118 | with the corrected constructor: a range exactly when the two overlap, contained in both |
| BufferedTimeRanges.MergedOfConstructed | rialto/lib/buffered-time-ranges.ts:120-136 | for constructed ranges the merge is null exactly when they do not touch, builds a range only when the touching point is both the earliest start and the latest end, and that range is empty; otherwise it throws |
| BufferedTimeRanges.ConstructedNeverOverlap | rialto/lib/buffered-time-ranges.ts:2-9 | two constructed ranges never overlap |
| BufferedTimeRanges.GapOfConstructed | rialto/lib/buffered-time-ranges.ts:138-149 | for constructed ranges the gap is never null, and it is a range only when all four bounds are equal |
| BufferedTimeRanges.MergeCoversUnion | rialto/lib/buffered-time-ranges.ts:125-136 | the merge of two proper ranges that overlap or touch is proper and covers exactly the times either covers |
| BufferedTimeRanges.MergeRanges | rialto/lib/buffered-time-ranges.ts:188-205 | the intended flatten scan keeps proper ranges, never grows the list, covers the same times, and separates ranges that come in order of start |
| BufferedTimeRanges.BufferedTimeRangeContainer.constructor | rialto/lib/buffered-time-ranges.ts:180-182 | the container holds the given ranges |
| BufferedTimeRanges.BufferedTimeRangeContainer.Insert | rialto/lib/buffered-time-ranges.ts:184-186 | the range is appended |
| BufferedTimeRanges.BufferedTimeRangeContainer.FlattenAsWritten | rialto/lib/buffered-time-ranges.ts:188-205 | as written the result is always a new, empty container |
| BufferedTimeRanges.BufferedTimeRangeContainer.Flatten | rialto/lib/buffered-time-ranges.ts:188-205 | corrected flatten: a new container covering the same times, separated when the input is in order |
| BufferedTimeRanges.BufferedTimeRangeContainer.AddTimeRanges | rialto/lib/buffered-time-ranges.ts:207-214 | the ranges before the first one the constructor refuses are appended in order, and it throws exactly when one is refused |
| BufferedTimeRanges.Ranges | rialto/lib/buffered-time-ranges.ts:208-213 | one range per start/end pair, in order |
| BufferedTimeRanges.AcceptedPrefix | rialto/lib/buffered-time-ranges.ts:208-213 | the constructor accepts every pair before the prefix's end and refuses the pair at it |
| ByteRanges.NewByteRange | rialto/lib/byte-range.ts:19-23 | `from` defaults to 0 and `total` to NaN, and `to` is kept as given |
| ByteRanges.Split | rialto/lib/byte-range.ts:15 | at least one piece, none holding a `-` |
| ByteRanges.JoinSplit | rialto/lib/byte-range.ts:15 | joining the pieces with `-` gives back the string |
| ByteRanges.FromStringHeaderAsWritten | rialto/lib/byte-range.ts:11-31 | for `"f-t"` the header reads `bytes f-f,t/*` |
| ByteRanges.FromStringIntended | rialto/lib/byte-range.ts:11-17 | corrected parse: `to` is the second number, or undefined when there is none |
| ByteRanges.FromStringHeaderIntended | rialto/lib/byte-range.ts:11-31 | for `"f-t"` the corrected header reads `bytes f-t/*` |
| ByteRanges.HeaderWithTotal | rialto/lib/byte-range.ts:28-30 | a range with a total prints it after the slash |
| ArrayBufferUtils.Placed | rialto/lib/array-buffer-utils.ts:18-20 | the bytes after a copy: the copied window comes from the source, every other byte is unchanged |
| ArrayBufferUtils.Place | rialto/lib/array-buffer-utils.ts:18-20 | the destination becomes the placed bytes |
| ArrayBufferUtils.CopyArrayBuffer | rialto/lib/array-buffer-utils.ts:5-23 | the two `>=` size checks throw first; negative offsets or lengths throw; otherwise the window is copied and the destination returned; on a throw nothing changes |
| ArrayBufferUtils.WholeCopyRefused | rialto/lib/array-buffer-utils.ts:7-12 | as written, copying a whole source with the default arguments is refused |
| ArrayBufferUtils.CopyArrayBufferIntended | rialto/lib/array-buffer-utils.ts:5-23 | corrected checks with `>`: same outcome otherwise |
| ArrayBufferUtils.IntendedChecksAcceptInBounds | rialto/lib/array-buffer-utils.ts:10-16 | the corrected checks pass exactly for in-bounds copies, and they differ from the written ones exactly when the copy ends at the last byte |
| ArrayBufferUtils.OffsetAsWrittenOverlaps | rialto/lib/array-buffer-utils.ts:33-36 | with three one-byte sources the third is placed at 1, where the second went, instead of at 2 |
| ArrayBufferUtils.CopyArrayBuffersAsWritten | rialto/lib/array-buffer-utils.ts:33-39 | as written only an empty list succeeds; any other list throws on its first copy and leaves the destination unchanged |
| ArrayBufferUtils.CopyArrayBuffersIntended | rialto/lib/array-buffer-utils.ts:25-39 | corrected: succeeds exactly when the concatenation fits, and the destination then starts with the concatenation; otherwise the error is "destination too small" and the destination holds the sources before the first one that does not fit |
| AdaptiveMediaModel.AdaptiveMedia.constructor | rialto/lib/adaptive-media.ts:29-34 | the engine is kept, there are no segments, no provider and no metadata |
| AdaptiveMediaModel.AdaptiveMedia.GetUrl | rialto/lib/adaptive-media.ts:71 | the segment index URI unless it is missing or empty, which give null |
| AdaptiveMediaModel.AdaptiveMedia.Refresh | rialto/lib/adaptive-media.ts:92-102 | rejects without a provider; passes on the provider's rejection with the segments unchanged; otherwise appends the delivered segments and resolves to the rendition; no other property changes |
| AdaptiveMediaModel.AdaptiveMediaSet.constructor | rialto/lib/adaptive-media.ts:120-123 | an empty set without a parent |
| AdaptiveMediaModel.AdaptiveMediaSet.Add | rialto/lib/adaptive-media.ts:120 | set semantics: a new rendition is appended in insertion order, one already present changes nothing, distinctness is kept |
| AdaptiveMediaModel.AdaptiveMediaPeriod.constructor | rialto/lib/adaptive-media.ts:130 | no sets |
| AdaptiveMediaModel.AdaptiveMediaPeriod.GetDefaultMedia | rialto/lib/adaptive-media.ts:135-140 | the first rendition of the first set; throws when that set is empty or there is no set |
| AdaptiveMediaModel.AdaptiveMediaPeriod.GetMediaListFromSet | rialto/lib/adaptive-media.ts:142-144 | the renditions of the set at the index, and a throw exactly when there is no such set |
| AdaptiveMediaModel.AdaptiveMediaPeriod.AddSet | rialto/lib/adaptive-media.ts:146-152 | throws when the set already has a parent; otherwise adopts it and appends it |
| HlsM3u8.Classify | rialto/lib/hls-m3u8.ts:75-83 | master exactly when there are variants, media exactly when there are none but there are segments, undetermined otherwise |
| HlsM3u8.FirstMissingResolution | rialto/lib/hls-m3u8.ts:90-101 | the index of the first variant without RESOLUTION; all before it have one |
| HlsM3u8.SegmentsTile | rialto/lib/hls-m3u8.ts:134-152 | the first segment starts at 0, each ends its duration after its start, and each next one starts where the previous ended |
| HlsM3u8.StartTimesOrdered | rialto/lib/hls-m3u8.ts:134-152 | with durations that are not negative, start times never decrease |
| HlsM3u8.HlsM3u8File.constructor | rialto/lib/hls-m3u8.ts:36-48 | one period whose only set is the file's empty set; not parsed; the type is as given |
| HlsM3u8.HlsM3u8File.SetBuffer | rialto/lib/resource.ts:134-137 | the buffer is set and nothing else changes |
| HlsM3u8.HlsM3u8File.Parse | rialto/lib/hls-m3u8.ts:54-87 | throws without data; returns the periods when already parsed; otherwise the parser result is kept and the file is classified: undetermined throws, master adds one rendition and one media playlist per variant up to the first without RESOLUTION, and media throws on the missing `fromRelativeURI` with the type set and the file unparsed |
| HlsM3u8.HlsM3u8File.ParseManifest | rialto/lib/hls-m3u8.ts:73-87 | the processing of a parsed manifest in each of its three cases, with the same new state as `Parse` |
| HlsM3u8.HlsM3u8File.ParseMaster | rialto/lib/hls-m3u8.ts:75-77 | master case: the type is set, the renditions and media playlists of the processed variants are appended in order, and it is parsed exactly when every variant has RESOLUTION |
| HlsM3u8.HlsM3u8File.ParseMediaAsWritten | rialto/lib/hls-m3u8.ts:78-141 | as written: the type is set to media, then the first segment's `MediaLocator.fromRelativeURI` call throws a TypeError; nothing is added and the file stays unparsed |
| HlsM3u8.HlsM3u8File.ParseMedia | rialto/lib/hls-m3u8.ts:78-80 | corrected media case: the type is set, one rendition is added, and the file is parsed |
| HlsM3u8.HlsM3u8File.ProcessMasterPlaylist | rialto/lib/hls-m3u8.ts:89-125 | one new rendition and one media playlist per variant, in order, up to the first variant without RESOLUTION, where it throws |
| HlsM3u8.HlsM3u8File.AddVariant | rialto/lib/hls-m3u8.ts:90-124 | one variant adds a rendition carrying its attributes and resolved URI, and a media playlist for that URI |
| HlsM3u8.HlsM3u8File.ProcessMediaVariantPlaylist | rialto/lib/hls-m3u8.ts:127-155 | corrected: one new rendition with one segment per entry, timed back to back, whose provider fetches this file |
| HlsM3u8.NewVariantMedia | rialto/lib/hls-m3u8.ts:92-105 | a fresh rendition with the variant's bandwidth, codecs, resolution and name, and the resolved URI |
| HlsM3u8.NewVariantPlaylist | rialto/lib/hls-m3u8.ts:109-114 | a fresh media playlist for the resolved variant URI |
| HlsM3u8.HlsM3u8MediaPlaylist.constructor | rialto/lib/hls-m3u8.ts:180-191 | wraps the file, with the file's URL as its own |
| HlsM3u8.NewMediaPlaylist | rialto/lib/hls-m3u8.ts:180-191 | throws exactly when the file is parsed and is not a media playlist |
| PlaybackStateMachine.Transitions | rialto/lib/playback-state-machine.ts:47-81 | the 23 rows of the transition table, in order |
| PlaybackStateMachine.Filter | rialto/lib/playback-state-machine.ts:174-181 | the rows that leave (or, backward, enter) the state and match the reason, or all of them when the reason is falsy |
| PlaybackStateMachine.FilterConcat | rialto/lib/playback-state-machine.ts:174-181 | filtering is block by block: every selected row is kept once, in table order |
| PlaybackStateMachine.FilterAppend | rialto/lib/playback-state-machine.ts:174-181 | one more row at the end is kept exactly when selected, after the rows kept before it |
| PlaybackStateMachine.FalsyReasonSelectsAll | rialto/lib/playback-state-machine.ts:177-179 | a falsy reason, the empty string included, selects like no reason |
| PlaybackStateMachine.FindPossibleTransitions | rialto/lib/playback-state-machine.ts:170-182 | a transition is possible exactly when it is in the table and selected by the state and reason |
| PlaybackStateMachine.TableKeysDistinct | rialto/lib/playback-state-machine.ts:47-81 | no two rows share a source state and a reason |
| PlaybackStateMachine.FilterAtMostOne | rialto/lib/playback-state-machine.ts:174-181 | over rows with distinct keys, a reason selects at most one forward row |
| PlaybackStateMachine.TableDeterministic | rialto/lib/playback-state-machine.ts:151-161 | with a truthy reason, at most one transition is possible, so the "more than one" error cannot occur |
| PlaybackStateMachine.ErrorRecovers | rialto/lib/playback-state-machine.ts:80 | from ERROR exactly one transition exists, and it leads to PAUSED |
| PlaybackStateMachine.NoneFromUnlisted | rialto/lib/playback-state-machine.ts:170-182 | a state whose name is none of the seven spellings (the `UnlistedName` type excludes them) has no transition |
| PlaybackStateMachine.StateNameRoundTrip | rialto/lib/playback-state-machine.ts:26-34 | a state is read back from its spelling and a non-empty name is the spelling of the state it reads as, so each name has exactly one state |
| PlaybackStateMachine.ReasonNameRoundTrip | rialto/lib/playback-state-machine.ts:10-24 | reasons and their spellings correspond one to one: a listed spelling is always its own reason, never an unlisted one |
| PlaybackStateMachine.SeekFromPlaying | rialto/lib/playback-state-machine.ts:70 | from PLAYING the reason spelled "media-seek" selects exactly the row to PAUSED |
| PlaybackStateMachine.ReasonlessOnlyFromError | rialto/lib/playback-state-machine.ts:47-81 | without a reason exactly one transition is possible exactly from ERROR, and it leads to PAUSED |
| PlaybackStateMachine.LookupStateOfMediaElement | rialto/lib/playback-state-machine.ts:102-126 | error, then ended, then readyState 0 (READY with a source, NULL without), then 1 to 4 (PAUSED or PLAYING); undefined otherwise |
| PlaybackStateMachine.InitialState | rialto/lib/playback-state-machine.ts:132-149 | a name is taken unchecked, an element is looked up, a falsy argument or an undefined lookup gives NULL; null and other truthy values throw |
| PlaybackStateMachine.StateMachine.constructor | rialto/lib/playback-state-machine.ts:128-149 | the initial state, with no previous state, no error and no events |
| PlaybackStateMachine.StateMachine.TriggerStateTransition | rialto/lib/playback-state-machine.ts:151-168 | no possible transition or more than one throws and changes nothing; exactly one moves to its target, remembers the old state and emits the event; a truthy reason never meets the "more than one" error |
| PlaybackStateMachine.StateMachine.NotifyError | rialto/lib/playback-state-machine.ts:184-187 | the error is recorded and a failure event emitted; the state is unchanged |
| PlaybackStateMachine.StateMachine.GetNextPossibleStates | rialto/lib/playback-state-machine.ts:189-195 | the next possible states of the current state, one per leaving row, in table order |
| PlaybackStateMachine.StateMachine.GetPreviousPossibleStates | rialto/lib/playback-state-machine.ts:197-203 | the previous possible states of the current state, one per entering row, in table order |
| PlaybackStateMachine.NextPossibleStates | rialto/lib/playback-state-machine.ts:189-195 | the targets of the reasonless forward transitions, one per row in table order; a state occurs exactly when some row leads to it |
| PlaybackStateMachine.PreviousPossibleStates | rialto/lib/playback-state-machine.ts:197-203 | the sources of the reasonless backward transitions, one per row in table order; a state occurs exactly when some row leads from it |
| PlaybackStateMachine.NextFromPlaying | rialto/lib/playback-state-machine.ts:66-73 | from PLAYING the next states are PLAYING, PAUSED four times and ENDED, in that order |
| PlaybackStateMachine.PreviousOfReady | rialto/lib/playback-state-machine.ts:48-49 | into READY the previous states are NULL twice |
| PlaybackStateMachine.NewStateMachine | rialto/lib/playback-state-machine.ts:132-149 | throws exactly when the argument is invalid; otherwise a fresh machine in the initial state |
| AdaptiveMediaClient.EligibleBefore | rialto/lib/adaptive-media-client.ts:71-87 | at most as many eligible segments as segments counted |
| AdaptiveMediaClient.Selection | rialto/lib/adaptive-media-client.ts:71-87 | at most `limit` indices, and at most one per segment scanned |
| AdaptiveMediaClient.SelectionIsFirstEligible | rialto/lib/adaptive-media-client.ts:62-88 | the scan starts fetches for the first eligible segments in order: an index is chosen exactly when its segment is eligible and fewer than `limit` eligible segments come before it, and min(eligible, limit) are chosen |
| AdaptiveMediaClient.SelectionSound | rialto/lib/adaptive-media-client.ts:73-79 | every chosen segment exists, is not loaded and does not end after the target |
| AdaptiveMediaClient.SelectionComplete | rialto/lib/adaptive-media-client.ts:71-87 | a scan below the limit has chosen every eligible segment |
| AdaptiveMediaClient.SelectionStep | rialto/lib/adaptive-media-client.ts:71-87 | one more segment adds its index exactly when it is eligible and the limit is not reached |
| AdaptiveMediaClient.AdaptiveMediaStreamConsumer.constructor | rialto/lib/adaptive-media-client.ts:45-54 | no target yet and the default limit of 4 |
| AdaptiveMediaClient.AdaptiveMediaStreamConsumer.UpdateFetchTarget | rialto/lib/adaptive-media-client.ts:56-60 | the target is stored and one scan starts the selected fetches |
| AdaptiveMediaClient.Scan | rialto/lib/adaptive-media-client.ts:62-88 | the loop starts fetches for exactly the selection, never more than the limit |
| SourceBufferQueueModel.SourceBuffer.constructor | rialto/src/source-buffer-queue.ts:9-10 | a buffer that is not updating, in the mode chosen when it was created |
| SourceBufferQueueModel.SourceBuffer.AppendBuffer | rialto/src/source-buffer-queue.ts:140 | an append starts an update and is recorded; offset, mode and track defaults stay |
| SourceBufferQueueModel.SourceBuffer.Remove | rialto/src/source-buffer-queue.ts:145 | a remove starts an update and is recorded; offset, mode and track defaults stay |
| SourceBufferQueueModel.SourceBuffer.Abort | rialto/src/source-buffer-queue.ts:173 | an abort ends the update and is recorded; offset, mode and track defaults stay |
| SourceBufferQueueModel.DrainIsPrefix | rialto/src/source-buffer-queue.ts:131-162 | the items dispatched by repeated dispatches form a prefix of the queue |
| SourceBufferQueueModel.DrainWithoutDrops | rialto/src/source-buffer-queue.ts:131-162 | without drop items every queued item is dispatched, in order |
| SourceBufferQueueModel.DrainStopsAtFirstDrop | rialto/src/source-buffer-queue.ts:147-149 | dispatching stops after the first drop item |
| SourceBufferQueueModel.TotalBytesQueuedConcat | rialto/src/source-buffer-queue.ts:74-80 | the queued byte count adds up over concatenation |
| SourceBufferQueueModel.NoAppendsNoBytes | rialto/src/source-buffer-queue.ts:74-80 | a queue without appends holds no bytes |
| SourceBufferQueueModel.ItemsQueuedCount | rialto/src/source-buffer-queue.ts:86-93 | the count never exceeds the queue length |
| SourceBufferQueueModel.ItemsQueuedCountPartition | rialto/src/source-buffer-queue.ts:86-93 | no filter counts everything, the three methods partition the queue, and any other method counts nothing |
| SourceBufferQueueModel.SourceBufferQueue.constructor | rialto/src/source-buffer-queue.ts:3-17 | an empty queue with no update started and the buffer's initial mode remembered |
| SourceBufferQueueModel.SourceBufferQueue.TryRunQueueOnce | rialto/src/source-buffer-queue.ts:131-151 | busy changes nothing; an empty queue faults; otherwise the head is dispatched (its offset set, its call made) in first-in first-out order; the MIME type, the buffer, its track defaults, the initial mode and the buffered byte count stay (`Fixed`) |
| SourceBufferQueueModel.SourceBufferQueue.Enqueue | rialto/src/source-buffer-queue.ts:95-99 | the item is queued and a dispatch is tried; the MIME type, the buffer, its track defaults, the initial mode and the buffered byte count stay (`Fixed`) |
| SourceBufferQueueModel.SourceBufferQueue.AppendBuffer | rialto/src/source-buffer-queue.ts:95-99 | busy: the append item waits at the end of the queue, `GetTotalBytes` grows by its length, and no call is made; idle: the queue head is dispatched from the queue plus the item, with its call, offset and busy flag stated; the MIME type, the buffer, its track defaults, the initial mode and the buffered byte count stay (`Fixed`) |
| SourceBufferQueueModel.SourceBufferQueue.Remove | rialto/src/source-buffer-queue.ts:111-115 | busy: the remove item waits with no call made; idle: the queue head is dispatched from the queue plus the item, with its call, offset and busy flag stated; alone, it leaves the offset undefined; the MIME type, the buffer, its track defaults, the initial mode and the buffered byte count stay (`Fixed`) |
| SourceBufferQueueModel.SourceBufferQueue.Drop | rialto/src/source-buffer-queue.ts:171-176 | the queue empties; an immediate drop of a busy buffer aborts it; the MIME type, the buffer, its track defaults, the initial mode and the buffered byte count stay (`Fixed`) |
| SourceBufferQueueModel.SourceBufferQueue.Flush | rialto/src/source-buffer-queue.ts:178-180 | the removal of 0 to +Infinity is queued or dispatched like any remove, with every case of the new state stated; the MIME type, the buffer, its track defaults, the initial mode and the buffered byte count stay (`Fixed`) |
| SourceBufferQueueModel.SourceBufferQueue.DropAndFlush | rialto/src/source-buffer-queue.ts:182-185 | aborts a busy buffer, empties the queue and starts the full removal at once, the removal being the one item queued; the update bookkeeping and the mode stay; the MIME type, the buffer, its track defaults, the initial mode and the buffered byte count stay (`Fixed`) |
| SourceBufferQueueModel.SourceBufferQueue.OnUpdateStart | rialto/src/source-buffer-queue.ts:164-169 | throws when an update start is already recorded, otherwise records the time; the MIME type, the buffer, its track defaults, the initial mode and the buffered byte count stay (`Fixed`) |
| SourceBufferQueueModel.SourceBufferQueue.OnUpdateEnd | rialto/src/source-buffer-queue.ts:153-162 | reports the update time, clears the start and tries one dispatch: busy or empty leaves queue and buffer as they were, otherwise the head is dispatched with its call, offset and busy flag; the MIME type, the buffer, its track defaults, the initial mode and the buffered byte count stay (`Fixed`) |
| SourceBufferQueueModel.SourceBufferQueue.SetModeSequentialAsWritten | rialto/src/source-buffer-queue.ts:51-64 | as written every call throws on the unbound `isUpdating` |
| SourceBufferQueueModel.SourceBufferQueue.SetModeSequential | rialto/src/source-buffer-queue.ts:51-64 | corrected: refused while updating; enabling sets `sequence`; disabling is refused when the initial mode was `sequence`, otherwise sets `segments`; the busy flag, the calls and the offset stay; the MIME type, the buffer, its track defaults, the initial mode and the buffered byte count stay (`Fixed`) |
| SourceBufferQueueModel.SourceBufferQueue.DropAsyncAsWritten | rialto/src/source-buffer-queue.ts:117-121 | as written every call throws on the unbound `start` |
| SourceBufferQueueModel.SourceBufferQueue.DropAsync | rialto/src/source-buffer-queue.ts:117-121 | corrected: never throws; a drop item waits while busy, and on an idle buffer the queue head is dispatched from the queue plus the drop, a lone drop leaving the queue empty and the buffer idle; the MIME type, the buffer, its track defaults, the initial mode and the buffered byte count stay (`Fixed`) |
| SourceBufferQueueModel.NewQueueAsWritten | rialto/src/source-buffer-queue.ts:3-17 | as written, given track defaults the constructor throws a TypeError; without them it builds an empty queue over the buffer |
| SourceBufferQueueModel.NewQueue | rialto/src/source-buffer-queue.ts:3-17 | corrected: an empty queue over the buffer, whose track defaults become the given ones; nothing else of the buffer changes |

## Left out

- The M3U8 text parser (the `m3u8-parser` package) is a function parameter from text to a manifest value. The model's manifest keeps only the fields the core reads.
- URL resolution (`resolveUri`, whose code is not part of this model) is not modelled. A resolved URI is kept as the pair of relative reference and base it came from.
- HlsM3u8.HlsM3u8File.ParseMedia: assumes a segment-locator resolver in place of `MediaLocator.fromRelativeURI`, which `media-locator.ts` does not define; it is the corrected half of a finding, and `Parse` follows the code as written (`ParseMediaAsWritten`).
- HlsM3u8.HlsM3u8File.ProcessMediaVariantPlaylist: assumes the same resolver; the locator it builds is the segment URI against the playlist URL, with the running start and end times and no byte range.
- Network I/O is left out: `Resource.fetch`, `HlsM3u8File.fetch` and `HlsM3u8MediaPlaylist.fetch`. A segment-index provider is recorded as the playlist it would fetch, and `Refresh` takes the segments the provider would deliver as a parameter.
- `HlsM3u8MediaPlaylist.parse` is not modelled, because it calls `getDefaultSet`, which `AdaptiveMediaPeriod` does not define.
- Promises become sequential calls. The fetch completion callback of the stream consumer and the `onUpdate` callback of the queue are not modelled. The queue records the update times it would report.
- Event emitters are a ghost log (`StateMachine.events`) or a recorded list of calls (`SourceBuffer.calls`). Logging is left out.
- Clocks (`Date.now`) are parameters.
- Scheduling is left out: the consumer's scheduler and framerate constant.
- Floating point is not modelled. Times are `real`, and NaN or undefined times are a missing `Option`. A NaN fetch target is not modelled.
- `unicodeBytesToString` is not modelled, because a Dafny `char` cannot hold a lone UTF-16 surrogate.
- `MpegDashSidx.fromBox` is `parseSidxData` applied to the box's data, which `ParseSidxData` covers.
- `appendMediaSegment` is not modelled. It reads an undeclared `timestampOffset`, so every call throws a ReferenceError before it queues anything.
- The byte counters `incrBufferedBytesCnt_` and `decBufferedBytesCnt_` are never called, and they write a misspelled field. `bufferedBytesCount` therefore stays 0: the constructor sets it, and every queue method keeps it (`Fixed`).
- The WebIDL conversion of the `timestampOffset` the queue assigns is not modelled, nor is the SourceBuffer's own argument validation. The buffer keeps the assigned value, with undefined as `None`.
- Parts of the queue constructor are left out: `addSourceBuffer` and the event-listener wiring. The model receives the SourceBuffer ready made. The track-defaults assignment is modelled by `NewQueueAsWritten` and `NewQueue`.
- ByteRanges.NumberOf: models JavaScript `Number` only for plain decimal digit strings, reading every other string as NaN. `Number` also accepts surrounding white space, a leading `+`, decimal fractions (`"5.0"` is 5, `"5.5"` is not an integer), exponents (`"1e2"`), hexadecimal, binary and octal prefixes (`"0x10"`) and `"Infinity"`, and it rounds digit strings above 2^53 to a double. A full model of that grammar and of double rounding is not part of this model.
- ByteRanges.FromStringIntended: inherits the restriction of `NumberOf`; its numbers are exact only for pieces that are plain digit strings of at most 2^53.
- ByteRanges.FromStringHeaderAsWritten: inherits the same restriction.
- AdaptiveMediaModel.AdaptiveMedia.Refresh: the provider's outcome is a parameter. The providers `HlsM3u8File` installs call `HlsM3u8MediaPlaylist.parse`, which is not modelled (see above).
- Trivial getters are not modelled separately; their fields are read directly: `getMode`, `isUpdating`, `getBufferedTimeranges`, `hasBeenParsed`, `getM3u8FileType`, `getM3u8ParserResult`, `inspectTransition`, `mapInspectTransitionsArray`.
- `AdaptiveMediaPeriod.filterByContainedMediaTypes` is not modelled, because `MediaContainerInfo` is not part of this model.
- Typed-array views with negative offsets (`subarray` counting from the end) are not modelled. The box walker's start is a `nat`.

## Findings

| source | as written | input that shows it | evidently intended | confidence | as-written member | corrected member |
|---|---|---|---|---|---|---|
| rialto/lib/mpeg-dash-sidx.ts:19 | `references` is declared but never set to a list, so the first non-hierarchical reference is pushed onto `undefined` | a `sidx` whose first reference has type 0 | start from an empty list | not executed | DashSidx.ParseSidxDataAsWritten | DashSidx.ParseSidxData |
| rialto/lib/buffered-time-ranges.ts:6 | the constructor throws when `end > start` | `new BufferedTimeRange(0, 1)` throws, and `(1, 0)` is accepted | throw unless end is strictly after start | not executed | BufferedTimeRanges.New | BufferedTimeRanges.NewIntended |
| rialto/lib/buffered-time-ranges.ts:102-118 | with the inverted constructor, the overlap of overlapping ranges is null | ranges (0,2) and (1,3), built without the constructor, give null | the overlap (1,2) | not executed | BufferedTimeRanges.OverlappingRangeInverted | BufferedTimeRanges.GetOverlappingRangeIntended |
| rialto/lib/buffered-time-ranges.ts:188-205 | `previousRange` is never set, so nothing is ever pushed and the result is always empty | any non-empty container | merge overlapping or touching neighbours and keep the rest | not executed | BufferedTimeRanges.BufferedTimeRangeContainer.FlattenAsWritten | BufferedTimeRanges.BufferedTimeRangeContainer.Flatten |
| rialto/lib/byte-range.ts:16 | `to` is given the whole list of parsed numbers | `"0-99"` prints as `bytes 0-0,99/*` | `to` is the second number, giving `bytes 0-99/*` | not executed | ByteRanges.FromStringHeaderAsWritten | ByteRanges.FromStringHeaderIntended |
| rialto/lib/array-buffer-utils.ts:10,14 | the size checks use `>=`, refusing a copy that ends exactly at the end of a buffer | copying a whole buffer with the default arguments | refuse only copies that run past the end (`>`) | not executed | ArrayBufferUtils.WholeCopyRefused | ArrayBufferUtils.IntendedChecksAcceptInBounds |
| rialto/lib/array-buffer-utils.ts:35 | each source is placed at the previous source's length, not at the sum of all previous lengths; with the `>=` check even the first copy throws | three one-byte sources: the third is placed at 1 | place each source after all previous ones | not executed | ArrayBufferUtils.OffsetAsWrittenOverlaps | ArrayBufferUtils.CopyArrayBuffersIntended |
| rialto/lib/hls-m3u8.ts:140 | segment locators are built by `MediaLocator.fromRelativeURI`, which `MediaLocator` (media-locator.ts:14-31) does not define | any media playlist with one segment: `parse` throws a TypeError after setting the type, and the file stays unparsed | resolve the segment URI against the playlist URL and build the locator with the running times | not executed | HlsM3u8.HlsM3u8File.ParseMediaAsWritten | HlsM3u8.HlsM3u8File.ParseMedia |
| rialto/src/source-buffer-queue.ts:52 | `isUpdating()` is called as a free function, which does not exist | any call of `setModeSequential` | `this.isUpdating()` | not executed | SourceBufferQueueModel.SourceBufferQueue.SetModeSequentialAsWritten | SourceBufferQueueModel.SourceBufferQueue.SetModeSequential |
| rialto/src/source-buffer-queue.ts:12 | the track defaults are assigned through `this.sourceBuffer`, a property the queue never defines | a truthy `trackDefaults` argument: `undefined.trackDefaults = …` throws a TypeError | assign through `this.sourceBuffer_` | not executed | SourceBufferQueueModel.NewQueueAsWritten | SourceBufferQueueModel.NewQueue |
| rialto/src/source-buffer-queue.ts:118 | `start` and `end` are unbound in `dropAsync` | any call of `dropAsync` | queue a drop item | not executed | SourceBufferQueueModel.SourceBufferQueue.DropAsyncAsWritten | SourceBufferQueueModel.SourceBufferQueue.DropAsync |
