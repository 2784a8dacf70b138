# Transcript chunking and YouTube client ids, modelled in Dafny

This project models the transcript chunker at the centre of the `sadhguru`
recommender. It also models the parts of its YouTube client that decide what
the chunker is given.

- **`Chunker(chunk_by, **kwargs)`** picks a strategy and two thresholds,
  `expected_threshold` and `min_tolerable_threshold`. It is modelled by
  module `Chunking`.
- **`_chunk_by_length`** walks the subtitle lines of one video. It grows an
  open block line by line. It closes the block once the block holds at least
  `expected_threshold` words and at least `min_tolerable_threshold` words
  remain. It merges the rest of the transcript into the block once at most
  `min_tolerable_threshold` words remain. Every record it emits carries:
  - the joined text;
  - its word count;
  - the start time of the first line;
  - an end time.

  A transcript with a non-string line yields a single all-NaN record instead.
- **`_chunk_by_time`** only raises `NotImplementedError`.
- **`get_chunks`** chunks every video and numbers each video's records
  0, 1, 2, …. It keys every row by `(videoId, block_number)`.

The modules:

- `Words` models Python's `str.split()`, `str.strip()` and `" ".join`. The
  whitespace is the full `str.isspace` set.
- `Segmentation` holds `PiecesFrom`, a recursive function that follows the
  loop over per-line word counts and yields the blocks (`Piece`s) it closes or
  merges. It proves what the blocks are:
  - they are chained and justified;
  - they reach the end;
  - they drop nothing.
- `LengthSpec` builds the records from the blocks. It uses `subtitles.index`,
  the first line equal to the block's first line, for the start time.
- `LengthStrategy` is the imperative loop of `_chunk_by_length`, with the
  fields of its `state` dictionary as local variables. It is proved to yield
  exactly `LengthSpec.LengthChunks`.
- `LengthRecords` proves what each record holds.
- `Coverage` proves that the blocks read the whole transcript in order.
- `TimeOrder` proves when the records come out in time order.
- `GetChunks` models `get_chunks` over a sequence of videos.
- `YouTube` models:
  - the playlist-id normalisation of `from_playlist`;
  - the query-kind assertion, the pagination and quota loop, and the
    transcript failure sentinel of `_execute_query`, with the client's
    `state` as a class;
  - the subtitle and timestamp columns that `_process_query` builds from a
    transcript.
- `Scenarios` works out concrete runs.

## Behaviour of the code that the model keeps

- **Tail merge.** The tail merge appends `subtitles[idx:]` to a block that
  already holds line `idx`, so that line is read twice and its words are
  counted twice. Ten one-word lines with thresholds 10 and 5 give one chunk
  of eleven lines and eleven words, from time 0 to 10
  (`Scenarios.TenOneWordLines`).
- **Dropped trailing block.** A trailing block is dropped only when
  `min_tolerable_threshold < 0`. On the last line nothing remains, so with a
  threshold of at least 0 the tail-merge test passes there
  (`Segmentation.ReachEnd`, `LengthRecords.EveryLineChunked`). With -1, a
  one-word transcript yields nothing (`Scenarios.NegativeMinDrops`). When no
  video yields a record, `get_chunks` fails to set its index
  (`Scenarios.NegativeMinNoIndex`).
- **Start time.** `start_time` is looked up by text: it is the start of the
  first line equal to the block's first line, not of the block's own position
  (`Scenarios.RepeatedLineStartTime`), and the line found is never after
  the block's own (`TimeOrder.StartLookedUpEarlier`). When no line repeats,
  the two agree (`LengthRecords.StartTimes`), and over intervals that never
  go backwards the records come out in time order
  (`TimeOrder.RecordsInTimeOrder`). A repeated line can break that order: a
  record may start before the previous one ends
  (`Scenarios.RepeatedOutOfOrder`).

## Model

| member | source | states |
|---|---|---|
| Chunking.NewChunker | backend/chunker.py:8-30 | succeeds exactly for "time" and "length", and otherwise fails the assertion. Each threshold is its keyword argument when given, and otherwise the strategy's default: 225/150 for length, 60/45 for time. |
| LengthStrategy.ChunkByLength | backend/chunker.py:38-92 | the records yielded are `LengthSpec.LengthChunks`: the single NaN record when a line is not a string, otherwise the segmented records. |
| LengthStrategy.SegmentTexts | backend/chunker.py:42-84 | the loop, which updates block, `length_of_block` and `covered_length` in place, yields exactly the records of the block structure `Blocks`, in order. |
| LengthStrategy.LineWords | backend/chunker.py:45-52 | the words the loop adds for line `idx` are that line's entry in the counts whose sum is `total_length`. |
| LengthSpec.LineLength | backend/chunker.py:46 | `len(s.strip().split())` is the number of words of `s`. |
| LengthSpec.CountsSum | backend/chunker.py:45-47 | `total_length` is the total number of words over all lines. |
| LengthSpec.RangeWords | backend/chunker.py:51-52 | the count a block accumulates line by line is the number of words in its lines. |
| LengthSpec.IndexOf | backend/chunker.py:64 | `list.index`: the position of the first element equal to `x`. |
| LengthSpec.Emit | backend/chunker.py:58-66 | an emitted record belongs to the video, ends at the given end time, and starts at the start time of the first line equal to the block's first line. |
| Words.StripKeepsWords | backend/chunker.py:46 | stripping a line does not change its words, so `strip().split()` and `split()` agree. |
| Words.WordsAroundSpace | backend/chunker.py:60 | splitting text joined at a whitespace character gives the words of each side. |
| Words.JoinWordCount | backend/chunker.py:60-63 | the words of `" ".join(block)` number exactly the `length_of_block` reported, the sum of each line's `split()`. |
| Words.WordsAreWords | backend/chunker.py:46 | every piece `split()` returns is non-empty and free of whitespace. |
| Segmentation.PiecesChained | backend/chunker.py:49-84 | the closed blocks follow one another without gaps: each starts on the line after the previous one closed, from line 0. |
| Segmentation.PiecesJustified | backend/chunker.py:53-71 | each close block met the close condition. Each tail merge failed it and had at most `min_tolerable_threshold` words left. |
| Segmentation.ReachEnd | backend/chunker.py:69-82 | with `min_tolerable_threshold >= 0`, the last block reaches the last line or merges the tail, so no trailing block is dropped. |
| Segmentation.ShortTranscript | backend/chunker.py:69-82 | a transcript with fewer words than `min_tolerable_threshold` is one tail merge at line 0. |
| Segmentation.NothingDropped | backend/chunker.py:49-84 | with `min_tolerable_threshold >= 0`, every line lies in some block. |
| LengthRecords.TextChunksBlocks | backend/chunker.py:49-84 | the records are the records of the blocks, one per block. |
| LengthRecords.ChunksOfBlocks | backend/chunker.py:53-82 | each record has the block's joined lines, its word count, the looked-up start and the end of line `idx` or of the last line. It also satisfies the condition of the branch that emitted it, and the word count of its text equals `length_of_block`. |
| LengthRecords.Fallback | backend/chunker.py:44-92 | the all-NaN record is the output exactly when some subtitle is not a string. Otherwise every record is a chunk. |
| LengthRecords.ShortTranscriptChunk | backend/chunker.py:69-82 | a short transcript gives one record: the first line followed by the whole transcript, with the first line counted twice, from the first start to the last end. |
| LengthRecords.MergedCountsLineTwice | backend/chunker.py:72-78 | a tail-merge record's `length_of_block` is the words from its start to the end, plus the words of line `idx` a second time. |
| LengthRecords.StartTimes | backend/chunker.py:64-79 | when no line repeats, each record starts at the start time of its own first line. |
| LengthRecords.EveryLineChunked | backend/chunker.py:49-84 | with `min_tolerable_threshold >= 0`, every line is in the block of some record. |
| Coverage.BlocksCoverTranscript | backend/chunker.py:49-84 | read in order, the blocks are exactly the transcript, except that a final tail merge reads its line `idx` twice; the lines after it are read once. |
| Coverage.ChainedLines | backend/chunker.py:50-72 | chained blocks read the lines from their first start to the end of their last block. |
| GetChunks.ChunkByTime | backend/chunker.py:32-36 | the time strategy never yields a record: it is always an error, `NotImplemented` (`GetChunks.GetChunksNumbering`). |
| GetChunks.GetChunks | backend/chunker.py:94-116 | `pd.concat` fails exactly on an empty input; otherwise the time strategy fails on the first video; a success is a length chunking with at least one row. Its numbering and keys are stated by `GetChunks.GetChunksNumbering` and `GetChunks.UniqueKeys`. |
| GetChunks.GetChunksNumbering | backend/chunker.py:32-116 | time chunking raises NotImplementedError. Length chunking fails on `set_index` exactly when no video yields a record. Otherwise it puts record `k` of video `i` at row `Offset(i) + k`, with that video's id and block number `k`, and the row count is the total over all videos. |
| GetChunks.TolerantChunksSucceed | backend/chunker.py:69-116 | with `min_tolerable_threshold >= 0`, every video of the input yields at least one record, so length chunking of a non-empty input succeeds. |
| GetChunks.UniqueKeys | backend/chunker.py:97-101 | when the video ids are distinct, the `(videoId, block_number)` keys are unique. |
| GetChunks.AllRowsIds | backend/chunker.py:102-115 | every row belongs to one of the input videos. |
| GetChunks.RecordsCarryVideoId | backend/chunker.py:94-116 | every record of a video carries that video's id, and its row is numbered by its position. |
| YouTube.FindFrom | backend/clients/youtube_client.py:296 | `str.find` from a position: the first occurrence, or -1 when there is none. |
| YouTube.NormalizedIdCases | backend/clients/youtube_client.py:291-300 | a non-URL is kept as is. A watch URL becomes what follows the first `&list=`, or everything from position 5 when `&list=` is absent (the `-1 + 6` slice). |
| YouTube.NormalizedId | backend/clients/youtube_client.py:291-300 | one element of `playlist_ids`: a bare id is kept, and a watch URL becomes a proper suffix of itself; `YouTube.NormalizedIdCases` says which suffix. |
| YouTube.PlaylistIds | backend/clients/youtube_client.py:297-300 | one normalised id per playlist argument, in order. |
| YouTube.WatchUrlRoundTrip | backend/clients/youtube_client.py:291-296 | a watch URL built from a video id without `&` and a list id normalises back to the list id. |
| YouTube.PlaylistIdsOfUrls | backend/clients/youtube_client.py:291-300 | for such URLs, the ids extracted are exactly the list ids. |
| YouTube.ParseQueryKind | backend/clients/youtube_client.py:94-110 | the assertion passes exactly for "metadata" and "transcript", and "metadata" selects the metadata branch. |
| YouTube.LastPageFrom | backend/clients/youtube_client.py:100-107 | the loop stops at the first page with no or empty `nextPageToken`, and every page before it had a token. |
| YouTube.YouTubeClient.constructor | backend/clients/youtube_client.py:63 | a new client has consumed 0 units of its 10000-unit daily quota. |
| YouTube.YouTubeClient.ExecuteMetadataQuery | backend/clients/youtube_client.py:97-109 | one request per page up to the last. The first request uses the given token or "", and each later one the previous page's token. Each page's items are yielded in order, `units_consumed` grows by `maxResults` (default 1) per request, and the quota is untouched. |
| YouTube.Plus | backend/clients/youtube_client.py:137 | `start + duration` is NaN exactly when either is NaN. |
| YouTube.TranscriptResponses | backend/clients/youtube_client.py:110-118 | a transcript query yields one response. A failed fetch yields the single all-NaN entry. |
| YouTube.ProcessTranscript | backend/clients/youtube_client.py:128-140 | the transcript branch of `_process_query`: when it has columns, they are of equal, non-zero length; `YouTube.TranscriptColumns` says when it fails and what the columns hold. |
| YouTube.TranscriptColumns | backend/clients/youtube_client.py:128-138 | `df.text` fails exactly for a fetch that succeeded with no entries. Otherwise the flattened fetch is the fetched entries (or the NaN entry), subtitles are their texts and timestamps `(start, start + duration)` line by line, with equal, non-zero lengths. |
| YouTube.FailedFetchChunks | backend/clients/youtube_client.py:110-138 | a failed fetch gives one NaN subtitle and a NaN interval, and chunking it by length gives the single NaN record. |
| Scenarios.TenOneWordLines | backend/chunker.py:49-82 | ten one-word lines with thresholds 10/5 give one record of lines 0-4 then 4-9: eleven words, from time 0 to 10. |
| Scenarios.NegativeMinDrops | backend/chunker.py:53-84 | with `min_tolerable_threshold` -1, a one-word transcript yields nothing. |
| Scenarios.NegativeMinNoIndex | backend/chunker.py:94-116 | with `min_tolerable_threshold` -1 and one one-word video, `get_chunks` fails on the missing `videoId` column. |
| TimeOrder.StartLookedUpEarlier | backend/chunker.py:64-79 | every record starts at the start time of the first line equal to its block's first line, and that line is never after the block's own first line. |
| TimeOrder.ChainedOrder | backend/chunker.py:49-84 | a later block starts after every earlier block ends. |
| TimeOrder.RecordsInTimeOrder | backend/chunker.py:53-82 | with no repeated line and intervals that never go backwards, each record starts no later than it ends, and every record ends no later than any later record starts. |
| Scenarios.RepeatedOutOfOrder | backend/chunker.py:58-66 | over the forward intervals `(i, i + 1)` with lines "x","y","x" and thresholds 1/0, record 1 ends at 2 but record 2 starts at 0: a repeated line breaks time order. |
| Scenarios.RepeatedLineStartTime | backend/chunker.py:64 | for lines "x","y","x" with thresholds 1/0, the third record is line 2 but starts at line 0's start time. |

## Left out

- The pandas glue is not modelled: DataFrame construction, `reset_index`,
  `rename`, `set_index` and `pd.concat`. `get_chunks` is modelled on a
  sequence of videos, and its rows carry the index columns as fields.
  `pd.concat` of no frames is modelled as the error `NothingToConcatenate`,
  and `set_index` on a frame without rows as `MissingIndexColumn`.
- Network access is not modelled: `getattr` dispatch to the API clients,
  `.execute()`, `time.sleep`, `tqdm` and printing. API responses are given as
  parameters: a sequence of pages, and a transcript fetch that succeeded or
  failed.
- `backend/recommender.py` and the rest of the YouTube client are not part of
  this model. That covers the metadata joins and renames, `_from_playlist_ids`
  and the video and channel searches.
- Generators are modelled as the whole sequence they yield. Laziness and
  early abandonment by the consumer are not modelled.
- Time values are not modelled as floats. Timestamps are a type parameter in
  the chunker and `real` in the client, so floating-point rounding is left
  out. NaN is a constructor, and only its propagation through `+` is
  modelled.
- LengthStrategy.ChunkByLength requires `subtitles` and `timestamps` of
  equal, non-zero length, which is what `_process_query` hands the chunker
  (`YouTube.TranscriptColumns`). What the source does on other inputs is not
  modelled:
  - with more timestamps than lines, a close record still ends at its own
    line's timestamp, but a tail-merge record ends at the last timestamp
    (`end_times[-1]`), not at the last line's: `["a"]` with `[(0, 1), (1, 2)]`
    and thresholds 225/150 yields one record ending at 2;
  - with some timestamps but fewer than lines, IndexError is raised only when
    `end_times[idx]` or the looked-up `start_times` index runs past the end;
    a tail merge still ends at `end_times[-1]`;
  - with string lines and no timestamps at all, unpacking `zip(*[])` raises
    ValueError at `start_times, end_times = ...`, before any line is read,
    and nothing catches it;
  - with a non-string line, the NaN record comes out even when `timestamps`
    is empty, because `strip` fails before `zip`.
- `Chunker` is an immutable value: its fields are only set in `__init__`.
  The `_func_mapping_dict` dispatch is a `match` on the strategy.
- `query.split(".")` and the resource/action lookup are not modelled. The
  metadata and transcript branches of `_execute_query` are separate members.
- YouTube.YouTubeClient.ExecuteMetadataQuery: the pages are given as a
  sequence that ends with a page without a next token (`requires Ends`). An
  API that never stops paging is not modelled. `daily_quota` is never checked
  by the source, and the model only keeps it unchanged.
- `_process_query`'s metadata column drop is not modelled. Only the transcript
  columns that feed the chunker are.
