/**
 * The times of the records `_chunk_by_length` (backend/chunker.py) yields:
 * the start time is looked up by text, never after the block's own first
 * line, and when no line repeats the records come out in time order.
 */
module TimeOrder {
  import opened Chunking
  import opened Segmentation
  import opened LengthSpec
  import opened LengthRecords

  /** Timestamps whose intervals never go backwards: each interval starts
      no later than it ends, and ends no later than the next one starts. */
  predicate Forward(timestamps: seq<(int, int)>) {
    (forall i :: 0 <= i < |timestamps| ==> timestamps[i].0 <= timestamps[i].1) &&
    (forall i :: 0 <= i < |timestamps| - 1 ==> timestamps[i].1 <= timestamps[i + 1].0)
  }

  /** An earlier interval ends before a later one starts. */
  lemma {:induction false} ForwardApart(timestamps: seq<(int, int)>, i: nat, j: nat)
    requires Forward(timestamps) && i < j < |timestamps|
    ensures timestamps[i].1 <= timestamps[j].0
    decreases j - i
  {
    if i + 1 < j {
      ForwardApart(timestamps, i, j - 1);
    }
  }

  /** The span from the start of line `i` to the end of line `j` is not negative. */
  lemma ForwardSpan(timestamps: seq<(int, int)>, i: nat, j: nat)
    requires Forward(timestamps) && i <= j < |timestamps|
    ensures timestamps[i].0 <= timestamps[j].1
  {
    if i < j {
      ForwardApart(timestamps, i, j);
    }
  }

  /** A later block starts after an earlier one ends. */
  lemma {:induction false} ChainedOrder(ps: seq<Piece>, from: nat, n: nat, j: nat, k: nat)
    requires Chained(ps, from, n) && j < k < |ps|
    ensures ps[j].at < ps[k].start
    decreases k
  {
    if j + 1 < k {
      ChainedOrder(ps, from, n, j, k - 1);
    }
  }

  /** `subtitles.index(block[0])` finds a line at or before the block's
      first line, and the record starts at that line's start time. */
  lemma StartLookedUpEarlier<T>(c: Chunker, videoId: string, texts: seq<string>, timestamps: seq<(T, T)>)
    requires |texts| == |timestamps|
    ensures |TextChunks(c, videoId, texts, timestamps)| == |Blocks(c, texts)|
    ensures forall k :: 0 <= k < |Blocks(c, texts)| ==>
              var p := Blocks(c, texts)[k];
              IndexOf(texts, texts[p.start]) <= p.start &&
              TextChunks(c, videoId, texts, timestamps)[k].Chunk? &&
              TextChunks(c, videoId, texts, timestamps)[k].startTime == timestamps[IndexOf(texts, texts[p.start])].0
  {
    ChunksOfBlocks(c, videoId, texts, timestamps);
  }

  /** With no repeated line and intervals that never go backwards, every
      record starts no later than it ends, and ends no later than the next
      record starts. */
  lemma RecordsInTimeOrder(c: Chunker, videoId: string, texts: seq<string>, timestamps: seq<(int, int)>)
    requires |texts| == |timestamps| && Distinct(texts) && Forward(timestamps)
    ensures forall k :: 0 <= k < |TextChunks(c, videoId, texts, timestamps)| ==>
              TextChunks(c, videoId, texts, timestamps)[k].Chunk? &&
              TextChunks(c, videoId, texts, timestamps)[k].startTime <= TextChunks(c, videoId, texts, timestamps)[k].endTime
    ensures forall j, k :: 0 <= j < k < |TextChunks(c, videoId, texts, timestamps)| ==>
              TextChunks(c, videoId, texts, timestamps)[j].Chunk? &&
              TextChunks(c, videoId, texts, timestamps)[k].Chunk? &&
              TextChunks(c, videoId, texts, timestamps)[j].endTime <= TextChunks(c, videoId, texts, timestamps)[k].startTime
  {
    var rs := TextChunks(c, videoId, texts, timestamps);
    var ps := Blocks(c, texts);
    ChunksOfBlocks(c, videoId, texts, timestamps);
    StartTimes(c, videoId, texts, timestamps);
    PiecesChained(c, Counts(texts));
    forall k | 0 <= k < |rs|
      ensures rs[k].Chunk? && rs[k].startTime <= rs[k].endTime
    {
      if ps[k].kind == Close {
        ForwardSpan(timestamps, ps[k].start, ps[k].at);
      } else {
        ForwardSpan(timestamps, ps[k].start, |texts| - 1);
      }
    }
    forall j, k | 0 <= j < k < |rs|
      ensures rs[j].Chunk? && rs[k].Chunk? && rs[j].endTime <= rs[k].startTime
    {
      assert ps[j].kind == Close;
      ChainedOrder(ps, 0, |texts|, j, k);
      ForwardApart(timestamps, ps[j].at, ps[k].start);
    }
  }
}
