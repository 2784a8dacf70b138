/**
 * `_chunk_by_length` of backend/chunker.py as the source runs it, proved
 * to yield `LengthSpec.LengthChunks`.
 */
module LengthStrategy {
  import opened Words
  import opened Chunking
  import opened Segmentation
  import opened LengthSpec

  /** `_chunk_by_length`: the `except AttributeError` fallback around the
      segmenting loop. */
  method ChunkByLength<T>(c: Chunker, videoId: string, subtitles: seq<Line>, timestamps: seq<(T, T)>)
    returns (records: seq<Record<T>>)
    requires |subtitles| == |timestamps| > 0
    ensures records == LengthChunks(c, videoId, subtitles, timestamps)
  {
    if !AllText(subtitles) {
      // `strip` fails on the non-string line while computing `total_length`
      return [NaNRecord(videoId)];
    }
    records := SegmentTexts(c, videoId, Texts(subtitles), timestamps);
  }

  /** `len(subtitle.strip().split())` for the line at `idx`: its entry in
      the per-line counts that make up `total_length`. */
  method LineWords(texts: seq<string>, idx: nat) returns (n: nat)
    requires idx < |texts|
    ensures n == Counts(texts)[idx]
  {
    n := LineLength(texts[idx]);
    CountsAt(texts, idx);
  }

  lemma BlockGrows(texts: seq<string>, start: nat, idx: nat)
    requires start <= idx < |texts|
    ensures texts[start..idx] + [texts[idx]] == texts[start..idx + 1]
  {
  }

  /** The loop's invariant after a block is closed at line `idx`. */
  lemma CloseKeeps<T>(c: Chunker, videoId: string, texts: seq<string>, timestamps: seq<(T, T)>, lens: seq<nat>, total: int, idx: nat, st: State,
                      yielded: seq<Record<T>>, all: seq<Record<T>>)
    requires |texts| == |timestamps| == |lens| && st.start <= idx < |texts|
    requires st.lengthOfBlock + lens[idx] >= c.expectedThreshold
    requires total - (st.coveredLength + lens[idx]) >= c.minTolerableThreshold
    requires yielded + RecordsFrom(c, videoId, texts, timestamps, lens, total, idx, st) == all
    ensures texts[st.start..idx + 1][0] in texts
    ensures (yielded + [Emit(videoId, texts, timestamps, texts[st.start..idx + 1], timestamps[idx].1)])
            + RecordsFrom(c, videoId, texts, timestamps, lens, total, idx + 1, State(idx + 1, 0, st.coveredLength + lens[idx])) == all
  {
    RecordsFromClose(c, videoId, texts, timestamps, lens, total, idx, st);
    Regroup(yielded, Emit(videoId, texts, timestamps, texts[st.start..idx + 1], timestamps[idx].1),
            RecordsFrom(c, videoId, texts, timestamps, lens, total, idx + 1, State(idx + 1, 0, st.coveredLength + lens[idx])));
  }

  /** After a tail merge at line `idx` nothing is left to yield. */
  lemma MergeEnds<T>(c: Chunker, videoId: string, texts: seq<string>, timestamps: seq<(T, T)>, lens: seq<nat>, total: int, idx: nat, st: State,
                     yielded: seq<Record<T>>, all: seq<Record<T>>)
    requires |texts| == |timestamps| == |lens| && st.start <= idx < |texts|
    requires !(st.lengthOfBlock + lens[idx] >= c.expectedThreshold &&
               total - (st.coveredLength + lens[idx]) >= c.minTolerableThreshold)
    requires total - (st.coveredLength + lens[idx]) <= c.minTolerableThreshold
    requires yielded + RecordsFrom(c, videoId, texts, timestamps, lens, total, idx, st) == all
    ensures (texts[st.start..idx + 1] + texts[idx..])[0] in texts
    ensures yielded + [Emit(videoId, texts, timestamps, texts[st.start..idx + 1] + texts[idx..], timestamps[|timestamps| - 1].1)] == all
  {
    RecordsFromMerge(c, videoId, texts, timestamps, lens, total, idx, st);
  }

  /** The body of the `try` in `_chunk_by_length`: one pass over the lines
      with the open block, its count and `covered_length` updated in place.
      The ghost `st` is the loop's state, with `st.start` the index of the
      open block's first line. */
  method SegmentTexts<T>(c: Chunker, videoId: string, texts: seq<string>, timestamps: seq<(T, T)>)
    returns (records: seq<Record<T>>)
    requires |texts| == |timestamps| > 0
    ensures records == TextChunks(c, videoId, texts, timestamps)
  {
    var counts := Counts(texts);
    var totalLength := Sum(counts);
    var block: seq<string> := [];
    var lengthOfBlock: nat := 0;
    var coveredLength: nat := 0;
    var yielded: seq<Record<T>> := [];
    ghost var st := State(0, 0, 0);
    ghost var all := TextChunks(c, videoId, texts, timestamps);
    var idx: nat := 0;
    while idx < |texts|
      invariant st == State(st.start, lengthOfBlock, coveredLength)
      invariant st.start <= idx <= |texts| && block == texts[st.start..idx]
      invariant yielded + RecordsFrom(c, videoId, texts, timestamps, counts, totalLength, idx, st) == all
      decreases |texts| - idx
    {
      var n := LineWords(texts, idx);
      block := block + [texts[idx]];
      lengthOfBlock := lengthOfBlock + n;
      coveredLength := coveredLength + n;
      BlockGrows(texts, st.start, idx);
      if lengthOfBlock >= c.expectedThreshold && totalLength - coveredLength >= c.minTolerableThreshold {
        CloseKeeps(c, videoId, texts, timestamps, counts, totalLength, idx, st, yielded, all);
        yielded := yielded + [Emit(videoId, texts, timestamps, block, timestamps[idx].1)];
        block := [];
        lengthOfBlock := 0;
        st := State(idx + 1, 0, st.coveredLength + counts[idx]);
        idx := idx + 1;
      } else if totalLength - coveredLength <= c.minTolerableThreshold {
        MergeEnds(c, videoId, texts, timestamps, counts, totalLength, idx, st, yielded, all);
        block := block + texts[idx..];
        return yielded + [Emit(videoId, texts, timestamps, block, timestamps[|timestamps| - 1].1)];
      } else {
        RecordsFromContinue(c, videoId, texts, timestamps, counts, totalLength, idx, st);
        st := State(st.start, st.lengthOfBlock + counts[idx], st.coveredLength + counts[idx]);
        idx := idx + 1;
      }
    }
    assert yielded + [] == yielded;
    return yielded;
  }
}
