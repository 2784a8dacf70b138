/**
 * `get_chunks` of backend/chunker.py: every video of the scraped frame is
 * segmented by the configured strategy and the records are gathered into
 * one frame indexed by `(videoId, block_number)`.
 */
module GetChunks {
  import opened Chunking
  import opened LengthSpec
  import opened LengthRecords

  /** Every record of a video, the NaN fallback included, carries that
      video's id, so its numbered rows are keyed by that id. */
  lemma RecordsCarryVideoId<T>(c: Chunker, v: Video<T>)
    requires Aligned(v)
    ensures forall k :: 0 <= k < |Records(c, v)| ==> Records(c, v)[k].videoId == v.videoId
    ensures forall k :: 0 <= k < |Records(c, v)| ==>
              Numbered(Records(c, v))[k] == Row(v.videoId, k, Records(c, v)[k])
  {
    if AllText(v.subtitles) {
      AllChunks(c, v.videoId, Texts(v.subtitles), v.timestamps);
    }
  }

  // ---------------------------------------------------------------------
  // Strategies and `get_chunks`

  /** `_chunk_by_time`: raises NotImplementedError when called. */
  function ChunkByTime<T>(videoId: string, subtitles: seq<Line>, timestamps: seq<(T, T)>): (r: Result<seq<Record<T>>>)
    ensures r.Err?
  {
    Err(NotImplemented)
  }

  /** The strategy dispatch of `get_chunks` for one video. */
  function Segment<T>(c: Chunker, v: Video<T>): Result<seq<Record<T>>>
    requires Aligned(v)
  {
    match c.chunkBy
    case Length => Ok(Records(c, v))
    case Time => ChunkByTime(v.videoId, v.subtitles, v.timestamps)
  }

  /** One row of the scraped frame: a video id with its subtitles and timestamps. */
  datatype Video<T> = Video(videoId: string, subtitles: seq<Line>, timestamps: seq<(T, T)>)

  /** A row of the chunked frame, keyed by `(videoId, block_number)`. */
  datatype Row<T> = Row(videoId: string, blockNumber: nat, record: Record<T>)

  /** What `zip(*timestamps)` and the indexing in `_chunk_by_length` need. */
  predicate Aligned<T>(v: Video<T>) {
    |v.subtitles| == |v.timestamps| > 0
  }

  /** The records the length strategy yields for one video. */
  function Records<T>(c: Chunker, v: Video<T>): seq<Record<T>>
    requires Aligned(v)
  {
    LengthChunks(c, v.videoId, v.subtitles, v.timestamps)
  }

  /** One video's records as rows; `reset_index` numbers each video's frame
      from 0. */
  function Numbered<T>(records: seq<Record<T>>): seq<Row<T>> {
    seq(|records|, k requires 0 <= k < |records| => Row(records[k].videoId, k, records[k]))
  }

  /** The concatenation, in input order, of every video's numbered rows. */
  function AllRows<T>(c: Chunker, videos: seq<Video<T>>): seq<Row<T>>
    requires forall i :: 0 <= i < |videos| ==> Aligned(videos[i])
  {
    if videos == [] then []
    else Numbered(Records(c, videos[0])) + AllRows(c, videos[1..])
  }

  /** `get_chunks`. The list comprehension calls the strategy for the first
      video before any other, so the time strategy fails there; with no
      video at all `pd.concat` has nothing to concatenate; when no video
      yields a record, the concatenated frame has no `videoId` column and
      `set_index` fails. */
  function GetChunks<T>(c: Chunker, videos: seq<Video<T>>): (r: Result<seq<Row<T>>>)
    requires forall i :: 0 <= i < |videos| ==> Aligned(videos[i])
    ensures r == Err(NothingToConcatenate) <==> videos == []
    ensures videos != [] && c.chunkBy == Time ==> r == Err(NotImplemented)
    ensures r.Ok? ==> c.chunkBy == Length && r.value != []
  {
    if videos == [] then Err(NothingToConcatenate)
    else match Segment(c, videos[0])
      case Err(e) => Err(e)
      case Ok(_) =>
        var rows := AllRows(c, videos);
        if rows == [] then Err(MissingIndexColumn) else Ok(rows)
  }

  /** Number of rows the videos before position `i` contribute. */
  function Offset<T>(c: Chunker, videos: seq<Video<T>>, i: nat): nat
    requires i <= |videos|
    requires forall m :: 0 <= m < |videos| ==> Aligned(videos[m])
  {
    if i == 0 then 0
    else Offset(c, videos, i - 1) + |Records(c, videos[i - 1])|
  }

  /** Record `k` of video `i` is row `Offset(i) + k`. */
  lemma {:induction false} AllRowsLayout<T>(c: Chunker, videos: seq<Video<T>>, i: nat, k: nat)
    requires forall m :: 0 <= m < |videos| ==> Aligned(videos[m])
    requires i < |videos|
    requires k < |Records(c, videos[i])|
    ensures Offset(c, videos, i) + k < |AllRows(c, videos)|
    ensures AllRows(c, videos)[Offset(c, videos, i) + k] == Row(videos[i].videoId, k, Records(c, videos[i])[k])
    decreases |videos|, 1
  {
    if i == 0 {
      FirstVideoRows(c, videos, k);
    } else {
      LaterVideoRows(c, videos, i, k);
    }
  }

  lemma FirstVideoRows<T>(c: Chunker, videos: seq<Video<T>>, k: nat)
    requires forall m :: 0 <= m < |videos| ==> Aligned(videos[m])
    requires 0 < |videos| && k < |Records(c, videos[0])|
    ensures k < |AllRows(c, videos)|
    ensures AllRows(c, videos)[k] == Row(videos[0].videoId, k, Records(c, videos[0])[k])
  {
    var head := Numbered(Records(c, videos[0]));
    var rest := AllRows(c, videos[1..]);
    assert AllRows(c, videos) == head + rest;
    RecordsCarryVideoId(c, videos[0]);
    assert (head + rest)[k] == head[k];
  }

  lemma {:induction false} LaterVideoRows<T>(c: Chunker, videos: seq<Video<T>>, i: nat, k: nat)
    requires forall m :: 0 <= m < |videos| ==> Aligned(videos[m])
    requires 0 < i < |videos|
    requires k < |Records(c, videos[i])|
    ensures Offset(c, videos, i) + k < |AllRows(c, videos)|
    ensures AllRows(c, videos)[Offset(c, videos, i) + k] == Row(videos[i].videoId, k, Records(c, videos[i])[k])
    decreases |videos|, 0
  {
    var head := Numbered(Records(c, videos[0]));
    var rest := AllRows(c, videos[1..]);
    assert AllRows(c, videos) == head + rest;
    assert videos[1..][i - 1] == videos[i];
    AllRowsLayout(c, videos[1..], i - 1, k);
    OffsetShift(c, videos, i);
    var j := Offset(c, videos[1..], i - 1) + k;
    assert (head + rest)[|head| + j] == rest[j];
  }

  lemma {:induction false} AllRowsLength<T>(c: Chunker, videos: seq<Video<T>>)
    requires forall m :: 0 <= m < |videos| ==> Aligned(videos[m])
    ensures |AllRows(c, videos)| == Offset(c, videos, |videos|)
    decreases |videos|
  {
    if videos != [] {
      AllRowsLength(c, videos[1..]);
      OffsetShift(c, videos, |videos|);
    }
  }

  /** Offsets into `videos` are the first video's count plus offsets into the rest. */
  lemma {:induction false} OffsetShift<T>(c: Chunker, videos: seq<Video<T>>, i: nat)
    requires forall m :: 0 <= m < |videos| ==> Aligned(videos[m])
    requires 0 < i <= |videos|
    ensures Offset(c, videos, i) ==
            |Records(c, videos[0])| + Offset(c, videos[1..], i - 1)
    decreases i
  {
    if i > 1 {
      OffsetShift(c, videos, i - 1);
      assert videos[1..][i - 2] == videos[i - 1];
    }
  }

  /** `get_chunks` with the length strategy numbers every video's records
      0, 1, 2, ... in emission order, keeps the videos in input order, and
      keys each row by the video's id; it fails on the index exactly when
      no video yields a record. With the time strategy it raises
      NotImplementedError. */
  lemma GetChunksNumbering<T>(c: Chunker, videos: seq<Video<T>>, i: nat, k: nat)
    requires forall m :: 0 <= m < |videos| ==> Aligned(videos[m])
    requires i < |videos|
    ensures c.chunkBy == Time ==> GetChunks(c, videos) == Err(NotImplemented)
    ensures c.chunkBy == Length ==>
            (GetChunks(c, videos).Ok? <==> Offset(c, videos, |videos|) > 0)
    ensures c.chunkBy == Length && GetChunks(c, videos).Err? ==>
            GetChunks(c, videos).error == MissingIndexColumn
    ensures c.chunkBy == Length && GetChunks(c, videos).Ok? ==>
            var rows := GetChunks(c, videos).value;
            var records := Records(c, videos[i]);
            |rows| == Offset(c, videos, |videos|) &&
            (k < |records| ==>
              Offset(c, videos, i) + k < |rows| &&
              rows[Offset(c, videos, i) + k] == Row(videos[i].videoId, k, records[k]))
  {
    if c.chunkBy == Length {
      AllRowsLength(c, videos);
      var records := Records(c, videos[i]);
      if k < |records| {
        AllRowsLayout(c, videos, i, k);
      }
    }
  }

  /** With `min_tolerable_threshold >= 0` a video yields at least one
      record: the NaN record, or the record of its last block. */
  lemma TolerantVideoChunked<T>(c: Chunker, v: Video<T>)
    requires Aligned(v) && c.minTolerableThreshold >= 0
    ensures |Records(c, v)| > 0
  {
    if AllText(v.subtitles) {
      EveryLineChunked(c, v.videoId, Texts(v.subtitles), v.timestamps, 0);
    }
  }

  /** With `min_tolerable_threshold >= 0` every video yields at least one
      record, so `get_chunks` by length succeeds on any non-empty input. */
  lemma TolerantChunksSucceed<T>(c: Chunker, videos: seq<Video<T>>)
    requires forall m :: 0 <= m < |videos| ==> Aligned(videos[m])
    requires videos != [] && c.chunkBy == Length && c.minTolerableThreshold >= 0
    ensures forall m :: 0 <= m < |videos| ==> |Records(c, videos[m])| > 0
    ensures GetChunks(c, videos).Ok?
  {
    forall m | 0 <= m < |videos|
      ensures |Records(c, videos[m])| > 0
    {
      TolerantVideoChunked(c, videos[m]);
    }
    assert |AllRows(c, videos)| >= |Numbered(Records(c, videos[0]))|;
  }

  /** Every row's id is the id of one of the videos. */
  lemma {:induction false} AllRowsIds<T>(c: Chunker, videos: seq<Video<T>>)
    requires forall m :: 0 <= m < |videos| ==> Aligned(videos[m])
    ensures forall row <- AllRows(c, videos) :: exists m :: 0 <= m < |videos| && row.videoId == videos[m].videoId
    decreases |videos|
  {
    if videos != [] {
      var v := videos[0];
      RecordsCarryVideoId(c, v);
      AllRowsIds(c, videos[1..]);
      forall row <- AllRows(c, videos)
        ensures exists m :: 0 <= m < |videos| && row.videoId == videos[m].videoId
      {
        if row in AllRows(c, videos[1..]) {
          var m :| 0 <= m < |videos[1..]| && row.videoId == videos[1..][m].videoId;
          assert row.videoId == videos[m + 1].videoId;
        } else {
          assert row.videoId == videos[0].videoId;
        }
      }
    }
  }

  /** No two rows share a `(videoId, block_number)` key. */
  predicate KeysUnique<T>(rows: seq<Row<T>>) {
    forall a, b :: 0 <= a < b < |rows| ==>
      (rows[a].videoId, rows[a].blockNumber) != (rows[b].videoId, rows[b].blockNumber)
  }

  /** When the input videos have distinct ids, the `(videoId, block_number)`
      index of the chunked frame is unique. */
  lemma {:induction false} UniqueKeys<T>(c: Chunker, videos: seq<Video<T>>)
    requires forall m :: 0 <= m < |videos| ==> Aligned(videos[m])
    requires forall m, m' :: 0 <= m < m' < |videos| ==> videos[m].videoId != videos[m'].videoId
    ensures KeysUnique(AllRows(c, videos))
    decreases |videos|
  {
    if videos != [] {
      var v := videos[0];
      var head := Numbered(Records(c, v));
      var rest := AllRows(c, videos[1..]);
      RecordsCarryVideoId(c, v);
      UniqueKeys(c, videos[1..]);
      AllRowsIds(c, videos[1..]);
      var rows := AllRows(c, videos);
      assert rows == head + rest;
      forall a, b | 0 <= a < b < |rows|
        ensures (rows[a].videoId, rows[a].blockNumber) != (rows[b].videoId, rows[b].blockNumber)
      {
        if b < |head| {
          assert rows[a] == head[a] && rows[b] == head[b];
        } else if a >= |head| {
          assert rows[a] == rest[a - |head|] && rows[b] == rest[b - |head|];
        } else {
          assert rows[a] == head[a] && rows[a].videoId == v.videoId;
          assert rows[b] == rest[b - |head|] && rows[b] in rest;
          var m :| 0 <= m < |videos[1..]| && rows[b].videoId == videos[1..][m].videoId;
          assert videos[1..][m] == videos[m + 1];
        }
      }
    }
  }
}
