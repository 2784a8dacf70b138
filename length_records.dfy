/**
 * The records `_chunk_by_length` of backend/chunker.py yields, described
 * block by block: `TextChunks`, which follows the loop, is the list of the
 * records of the blocks `Blocks`, and each record carries the lines, word
 * count and times of its block.
 */
module LengthRecords {
  import opened Words
  import opened Chunking
  import opened Segmentation
  import opened LengthSpec

  lemma ToRecordsCons<T>(videoId: string, texts: seq<string>, timestamps: seq<(T, T)>, p: Piece, rest: seq<Piece>)
    requires |texts| == |timestamps| && p.start <= p.at < |texts| && Within(rest, |texts|)
    ensures Within([p] + rest, |texts|)
    ensures ToRecords(videoId, texts, timestamps, [p] + rest) ==
            [ToRecord(videoId, texts, timestamps, p)] + ToRecords(videoId, texts, timestamps, rest)
  {
    var ps := [p] + rest;
    assert forall k :: 0 < k < |ps| ==> ps[k] == rest[k - 1];
    assert ps[1..] == rest;
  }

  /** The `k`-th record is the record of the `k`-th block. */
  lemma {:induction false} ToRecordsAt<T>(videoId: string, texts: seq<string>, timestamps: seq<(T, T)>, ps: seq<Piece>, k: nat)
    requires |texts| == |timestamps| && Within(ps, |texts|) && k < |ps|
    ensures ToRecords(videoId, texts, timestamps, ps)[k] == ToRecord(videoId, texts, timestamps, ps[k])
    decreases |ps|
  {
    if k > 0 {
      assert forall j :: 0 <= j < |ps| - 1 ==> ps[1..][j] == ps[j + 1];
      ToRecordsAt(videoId, texts, timestamps, ps[1..], k - 1);
    }
  }

  lemma RecordOfClose<T>(videoId: string, texts: seq<string>, timestamps: seq<(T, T)>, start: nat, idx: nat)
    requires |texts| == |timestamps| && start <= idx < |texts|
    ensures texts[start..idx + 1][0] in texts
    ensures ToRecord(videoId, texts, timestamps, Piece(Close, start, idx)) ==
            Emit(videoId, texts, timestamps, texts[start..idx + 1], timestamps[idx].1)
  {
    assert texts[start..idx + 1][0] == texts[start];
  }

  lemma RecordOfMerge<T>(videoId: string, texts: seq<string>, timestamps: seq<(T, T)>, start: nat, idx: nat)
    requires |texts| == |timestamps| && start <= idx < |texts|
    ensures (texts[start..idx + 1] + texts[idx..])[0] in texts
    ensures ToRecord(videoId, texts, timestamps, Piece(TailMerge, start, idx)) ==
            Emit(videoId, texts, timestamps, texts[start..idx + 1] + texts[idx..], timestamps[|timestamps| - 1].1)
  {
    assert (texts[start..idx + 1] + texts[idx..])[0] == texts[start];
  }

  /** The records the loop yields from any point on are those of the blocks
      it emits from that point on. */
  lemma {:induction false} RecordsFromPieces<T>(c: Chunker, videoId: string, texts: seq<string>, timestamps: seq<(T, T)>,
                                                lens: seq<nat>, total: int, idx: nat, st: State)
    requires |texts| == |timestamps| == |lens| && st.start <= idx <= |texts|
    ensures Within(PiecesFrom(c, lens, total, idx, st), |texts|)
    ensures RecordsFrom(c, videoId, texts, timestamps, lens, total, idx, st) ==
            ToRecords(videoId, texts, timestamps, PiecesFrom(c, lens, total, idx, st))
    decreases |texts| - idx, 1
  {
    PiecesFromChained(c, lens, total, idx, st);
    if idx < |texts| {
      if st.lengthOfBlock + lens[idx] >= c.expectedThreshold &&
         total - (st.coveredLength + lens[idx]) >= c.minTolerableThreshold {
        ClosePieces(c, videoId, texts, timestamps, lens, total, idx, st);
      } else if total - (st.coveredLength + lens[idx]) <= c.minTolerableThreshold {
        MergePieces(c, videoId, texts, timestamps, lens, total, idx, st);
      } else {
        ContinuePieces(c, videoId, texts, timestamps, lens, total, idx, st);
      }
    }
  }

  /** The inductive step of `RecordsFromPieces` in the close branch. */
  lemma {:induction false} ClosePieces<T>(c: Chunker, videoId: string, texts: seq<string>, timestamps: seq<(T, T)>,
                                          lens: seq<nat>, total: int, idx: nat, st: State)
    requires |texts| == |timestamps| == |lens| && st.start <= idx < |texts|
    requires st.lengthOfBlock + lens[idx] >= c.expectedThreshold
    requires total - (st.coveredLength + lens[idx]) >= c.minTolerableThreshold
    requires Within(PiecesFrom(c, lens, total, idx, st), |texts|)
    ensures RecordsFrom(c, videoId, texts, timestamps, lens, total, idx, st) ==
            ToRecords(videoId, texts, timestamps, PiecesFrom(c, lens, total, idx, st))
    decreases |texts| - idx, 0
  {
    var st' := State(idx + 1, 0, st.coveredLength + lens[idx]);
    RecordsFromPieces(c, videoId, texts, timestamps, lens, total, idx + 1, st');
    RecordsFromClose(c, videoId, texts, timestamps, lens, total, idx, st);
    UnfoldClose(c, lens, total, idx, st);
    RecordOfClose(videoId, texts, timestamps, st.start, idx);
    ToRecordsCons(videoId, texts, timestamps, Piece(Close, st.start, idx), PiecesFrom(c, lens, total, idx + 1, st'));
  }

  /** The inductive step of `RecordsFromPieces` when the line joins the open block. */
  lemma {:induction false} ContinuePieces<T>(c: Chunker, videoId: string, texts: seq<string>, timestamps: seq<(T, T)>,
                                             lens: seq<nat>, total: int, idx: nat, st: State)
    requires |texts| == |timestamps| == |lens| && st.start <= idx < |texts|
    requires !(st.lengthOfBlock + lens[idx] >= c.expectedThreshold &&
               total - (st.coveredLength + lens[idx]) >= c.minTolerableThreshold)
    requires total - (st.coveredLength + lens[idx]) > c.minTolerableThreshold
    requires Within(PiecesFrom(c, lens, total, idx, st), |texts|)
    ensures RecordsFrom(c, videoId, texts, timestamps, lens, total, idx, st) ==
            ToRecords(videoId, texts, timestamps, PiecesFrom(c, lens, total, idx, st))
    decreases |texts| - idx, 0
  {
    var st' := State(st.start, st.lengthOfBlock + lens[idx], st.coveredLength + lens[idx]);
    RecordsFromPieces(c, videoId, texts, timestamps, lens, total, idx + 1, st');
    RecordsFromContinue(c, videoId, texts, timestamps, lens, total, idx, st);
    UnfoldContinue(c, lens, total, idx, st);
  }

  /** `RecordsFromPieces` in the tail-merge branch. */
  lemma MergePieces<T>(c: Chunker, videoId: string, texts: seq<string>, timestamps: seq<(T, T)>,
                       lens: seq<nat>, total: int, idx: nat, st: State)
    requires |texts| == |timestamps| == |lens| && st.start <= idx < |texts|
    requires !(st.lengthOfBlock + lens[idx] >= c.expectedThreshold &&
               total - (st.coveredLength + lens[idx]) >= c.minTolerableThreshold)
    requires total - (st.coveredLength + lens[idx]) <= c.minTolerableThreshold
    requires Within(PiecesFrom(c, lens, total, idx, st), |texts|)
    ensures RecordsFrom(c, videoId, texts, timestamps, lens, total, idx, st) ==
            ToRecords(videoId, texts, timestamps, PiecesFrom(c, lens, total, idx, st))
  {
    RecordsFromMerge(c, videoId, texts, timestamps, lens, total, idx, st);
    UnfoldMerge(c, lens, total, idx, st);
    RecordOfMerge(videoId, texts, timestamps, st.start, idx);
    ToRecordsCons(videoId, texts, timestamps, Piece(TailMerge, st.start, idx), []);
  }

  /** The records of a transcript are the records of its blocks, in order. */
  lemma TextChunksBlocks<T>(c: Chunker, videoId: string, texts: seq<string>, timestamps: seq<(T, T)>)
    requires |texts| == |timestamps|
    ensures TextChunks(c, videoId, texts, timestamps) == ToRecords(videoId, texts, timestamps, Blocks(c, texts))
  {
    RecordsFromPieces(c, videoId, texts, timestamps, Counts(texts), Sum(Counts(texts)), 0, State(0, 0, 0));
  }

  /** The words after line `at`: `total_length - covered_length` once line
      `at` is counted. */
  lemma RemainingWords(lens: seq<nat>, texts: seq<string>, at: nat)
    requires PerLine(lens, texts) && at < |texts|
    ensures Remaining(lens, at) == SumWords(texts[at + 1..])
  {
    SumRangeSplit(lens, 0, at + 1, |texts|);
    RangeWords(lens, texts, at + 1, |texts|);
    assert texts[at + 1..|texts|] == texts[at + 1..];
  }

  /** The record of a close block emitted at line `at`: the lines
      `start..at` joined by spaces, their word count, which reaches
      `expected_threshold`, the start time of the first line equal to line
      `start`, the end time of line `at`, and at least
      `min_tolerable_threshold` words after it. */
  ghost predicate ClosedChunk<T>(c: Chunker, videoId: string, texts: seq<string>, timestamps: seq<(T, T)>, p: Piece, r: Record<T>)
    requires |texts| == |timestamps|
  {
    && p.start <= p.at < |texts|
    && r == Chunk(videoId, Join(texts[p.start..p.at + 1]), SumWords(texts[p.start..p.at + 1]),
                  timestamps[IndexOf(texts, texts[p.start])].0, timestamps[p.at].1)
    && r.lengthOfBlock >= c.expectedThreshold
    && SumWords(texts[p.at + 1..]) >= c.minTolerableThreshold
    && WordCount(r.block) == r.lengthOfBlock
  }

  /** The record of a tail-merge block emitted at line `at`: the lines
      `start..at` followed by every line from `at` on (line `at` twice),
      ending at the end time of the last line, emitted because the close
      condition failed and at most `min_tolerable_threshold` words came
      after line `at`. */
  ghost predicate MergedChunk<T>(c: Chunker, videoId: string, texts: seq<string>, timestamps: seq<(T, T)>, p: Piece, r: Record<T>)
    requires |texts| == |timestamps|
  {
    && p.start <= p.at < |texts|
    && r == Chunk(videoId, Join(texts[p.start..p.at + 1] + texts[p.at..]), SumWords(texts[p.start..p.at + 1] + texts[p.at..]),
                  timestamps[IndexOf(texts, texts[p.start])].0, timestamps[|texts| - 1].1)
    && !(SumWords(texts[p.start..p.at + 1]) >= c.expectedThreshold && SumWords(texts[p.at + 1..]) >= c.minTolerableThreshold)
    && SumWords(texts[p.at + 1..]) <= c.minTolerableThreshold
    && WordCount(r.block) == r.lengthOfBlock
  }

  lemma BlockChunk<T>(c: Chunker, videoId: string, texts: seq<string>, timestamps: seq<(T, T)>, lens: seq<nat>, p: Piece)
    requires |texts| == |timestamps| && PerLine(lens, texts) && Justified(c, lens, p)
    ensures p.kind == Close ==> ClosedChunk(c, videoId, texts, timestamps, p, ToRecord(videoId, texts, timestamps, p))
    ensures p.kind == TailMerge ==> MergedChunk(c, videoId, texts, timestamps, p, ToRecord(videoId, texts, timestamps, p))
  {
    if p.kind == Close {
      ClosedWords(c, lens, texts, p);
      CloseChunk(c, videoId, texts, timestamps, p);
    } else {
      MergedWords(c, lens, texts, p);
      MergeChunk(c, videoId, texts, timestamps, p);
    }
  }

  /** The close condition in words of the lines rather than per-line counts. */
  lemma ClosedWords(c: Chunker, lens: seq<nat>, texts: seq<string>, p: Piece)
    requires PerLine(lens, texts) && Closed(c, lens, p)
    ensures p.start <= p.at < |texts|
    ensures SumWords(texts[p.start..p.at + 1]) >= c.expectedThreshold
    ensures SumWords(texts[p.at + 1..]) >= c.minTolerableThreshold
  {
    RangeWords(lens, texts, p.start, p.at + 1);
    RemainingWords(lens, texts, p.at);
  }

  /** The tail-merge condition in words of the lines. */
  lemma MergedWords(c: Chunker, lens: seq<nat>, texts: seq<string>, p: Piece)
    requires PerLine(lens, texts) && Merged(c, lens, p)
    ensures p.start <= p.at < |texts|
    ensures !(SumWords(texts[p.start..p.at + 1]) >= c.expectedThreshold &&
              SumWords(texts[p.at + 1..]) >= c.minTolerableThreshold)
    ensures SumWords(texts[p.at + 1..]) <= c.minTolerableThreshold
  {
    RangeWords(lens, texts, p.start, p.at + 1);
    RemainingWords(lens, texts, p.at);
  }

  lemma CloseChunk<T>(c: Chunker, videoId: string, texts: seq<string>, timestamps: seq<(T, T)>, p: Piece)
    requires |texts| == |timestamps| && p.kind == Close && p.start <= p.at < |texts|
    requires SumWords(texts[p.start..p.at + 1]) >= c.expectedThreshold
    requires SumWords(texts[p.at + 1..]) >= c.minTolerableThreshold
    ensures ClosedChunk(c, videoId, texts, timestamps, p, ToRecord(videoId, texts, timestamps, p))
  {
    ClosedRecordFields(videoId, texts, timestamps, p);
    RecordCountsItsWords(ToRecord(videoId, texts, timestamps, p), texts[p.start..p.at + 1]);
  }

  lemma MergeChunk<T>(c: Chunker, videoId: string, texts: seq<string>, timestamps: seq<(T, T)>, p: Piece)
    requires |texts| == |timestamps| && p.kind == TailMerge && p.start <= p.at < |texts|
    requires !(SumWords(texts[p.start..p.at + 1]) >= c.expectedThreshold && SumWords(texts[p.at + 1..]) >= c.minTolerableThreshold)
    requires SumWords(texts[p.at + 1..]) <= c.minTolerableThreshold
    ensures MergedChunk(c, videoId, texts, timestamps, p, ToRecord(videoId, texts, timestamps, p))
  {
    MergedRecordFields(videoId, texts, timestamps, p);
    RecordCountsItsWords(ToRecord(videoId, texts, timestamps, p), texts[p.start..p.at + 1] + texts[p.at..]);
  }

  lemma ClosedRecordFields<T>(videoId: string, texts: seq<string>, timestamps: seq<(T, T)>, p: Piece)
    requires |texts| == |timestamps| && p.kind == Close && p.start <= p.at < |texts|
    ensures ToRecord(videoId, texts, timestamps, p) ==
            Chunk(videoId, Join(texts[p.start..p.at + 1]), SumWords(texts[p.start..p.at + 1]),
                  timestamps[IndexOf(texts, texts[p.start])].0, timestamps[p.at].1)
  {
    assert p == Piece(Close, p.start, p.at);
    RecordOfClose(videoId, texts, timestamps, p.start, p.at);
    assert texts[p.start..p.at + 1][0] == texts[p.start];
  }

  /** A record built from `block` has the word count of its text as size. */
  lemma RecordCountsItsWords<T>(r: Record<T>, block: seq<string>)
    requires r.Chunk? && r.block == Join(block) && r.lengthOfBlock == SumWords(block)
    ensures WordCount(r.block) == r.lengthOfBlock
  {
    JoinWordCount(block);
  }

  lemma MergedRecordFields<T>(videoId: string, texts: seq<string>, timestamps: seq<(T, T)>, p: Piece)
    requires |texts| == |timestamps| && p.kind == TailMerge && p.start <= p.at < |texts|
    ensures ToRecord(videoId, texts, timestamps, p) ==
            Chunk(videoId, Join(texts[p.start..p.at + 1] + texts[p.at..]), SumWords(texts[p.start..p.at + 1] + texts[p.at..]),
                  timestamps[IndexOf(texts, texts[p.start])].0, timestamps[|texts| - 1].1)
  {
    assert p == Piece(TailMerge, p.start, p.at);
    RecordOfMerge(videoId, texts, timestamps, p.start, p.at);
    assert (texts[p.start..p.at + 1] + texts[p.at..])[0] == texts[p.start];
  }

  /** One record per block, and each record is the record of its block as
      the branch that emitted the block builds it. */
  lemma ChunksOfBlocks<T>(c: Chunker, videoId: string, texts: seq<string>, timestamps: seq<(T, T)>)
    requires |texts| == |timestamps|
    ensures |TextChunks(c, videoId, texts, timestamps)| == |Blocks(c, texts)|
    ensures forall k :: 0 <= k < |Blocks(c, texts)| && Blocks(c, texts)[k].kind == Close ==>
              ClosedChunk(c, videoId, texts, timestamps, Blocks(c, texts)[k], TextChunks(c, videoId, texts, timestamps)[k])
    ensures forall k :: 0 <= k < |Blocks(c, texts)| && Blocks(c, texts)[k].kind == TailMerge ==>
              MergedChunk(c, videoId, texts, timestamps, Blocks(c, texts)[k], TextChunks(c, videoId, texts, timestamps)[k])
  {
    TextChunksBlocks(c, videoId, texts, timestamps);
    PiecesJustified(c, Counts(texts));
    CountsPerLine(texts);
    forall k | 0 <= k < |Blocks(c, texts)|
      ensures Blocks(c, texts)[k].kind == Close ==>
                ClosedChunk(c, videoId, texts, timestamps, Blocks(c, texts)[k], TextChunks(c, videoId, texts, timestamps)[k])
      ensures Blocks(c, texts)[k].kind == TailMerge ==>
                MergedChunk(c, videoId, texts, timestamps, Blocks(c, texts)[k], TextChunks(c, videoId, texts, timestamps)[k])
    {
      ToRecordsAt(videoId, texts, timestamps, Blocks(c, texts), k);
      BlockChunk(c, videoId, texts, timestamps, Counts(texts), Blocks(c, texts)[k]);
    }
  }

  /** Every record of an all-string transcript is a chunk of `videoId`. */
  lemma AllChunks<T>(c: Chunker, videoId: string, texts: seq<string>, timestamps: seq<(T, T)>)
    requires |texts| == |timestamps|
    ensures forall k :: 0 <= k < |TextChunks(c, videoId, texts, timestamps)| ==>
              TextChunks(c, videoId, texts, timestamps)[k].Chunk? &&
              TextChunks(c, videoId, texts, timestamps)[k].videoId == videoId
  {
    TextChunksBlocks(c, videoId, texts, timestamps);
    forall k | 0 <= k < |TextChunks(c, videoId, texts, timestamps)|
      ensures TextChunks(c, videoId, texts, timestamps)[k].Chunk?
      ensures TextChunks(c, videoId, texts, timestamps)[k].videoId == videoId
    {
      ToRecordsAt(videoId, texts, timestamps, Blocks(c, texts), k);
    }
  }

  /** The all-NaN record is the output exactly when some subtitle is not a
      string; otherwise every record is a chunk of the video. */
  lemma Fallback<T>(c: Chunker, videoId: string, subtitles: seq<Line>, timestamps: seq<(T, T)>)
    requires |subtitles| == |timestamps| > 0
    ensures !AllText(subtitles) <==> LengthChunks(c, videoId, subtitles, timestamps) == [NaNRecord(videoId)]
    ensures AllText(subtitles) ==>
              forall k :: 0 <= k < |LengthChunks(c, videoId, subtitles, timestamps)| ==>
                LengthChunks(c, videoId, subtitles, timestamps)[k].Chunk?
  {
    if AllText(subtitles) {
      var rs := TextChunks(c, videoId, Texts(subtitles), timestamps);
      AllChunks(c, videoId, Texts(subtitles), timestamps);
      if |rs| > 0 {
        assert rs[0].Chunk?;
      }
    }
  }

  /** A transcript with fewer words than `min_tolerable_threshold` gives a
      single record: the first line followed by the whole transcript, from
      the start of the first line to the end of the last, with the first
      line's words counted twice. */
  lemma ShortTranscriptChunk<T>(c: Chunker, videoId: string, texts: seq<string>, timestamps: seq<(T, T)>)
    requires |texts| == |timestamps| > 0 && SumWords(texts) < c.minTolerableThreshold
    ensures TextChunks(c, videoId, texts, timestamps) ==
            [Chunk(videoId, Join([texts[0]] + texts), WordCount(texts[0]) + SumWords(texts),
                   timestamps[0].0, timestamps[|texts| - 1].1)]
  {
    CountsSum(texts);
    ShortTranscript(c, Counts(texts));
    TextChunksBlocks(c, videoId, texts, timestamps);
    ToRecordsCons(videoId, texts, timestamps, Piece(TailMerge, 0, 0), []);
    WholeTranscriptRecord(videoId, texts, timestamps);
  }

  /** The record of the tail-merge block emitted at line 0. */
  lemma WholeTranscriptRecord<T>(videoId: string, texts: seq<string>, timestamps: seq<(T, T)>)
    requires |texts| == |timestamps| > 0
    ensures ToRecord(videoId, texts, timestamps, Piece(TailMerge, 0, 0)) ==
            Chunk(videoId, Join([texts[0]] + texts), WordCount(texts[0]) + SumWords(texts),
                  timestamps[0].0, timestamps[|texts| - 1].1)
  {
    RecordOfMerge(videoId, texts, timestamps, 0, 0);
    assert texts[0..1] + texts[0..] == [texts[0]] + texts;
    SumWordsAppend([texts[0]], texts);
    SumWordsSingle(texts[0]);
  }

  lemma SumWordsSingle(line: string)
    ensures SumWords([line]) == WordCount(line)
  {
    assert [line][..0] == [];
  }

  /** A tail-merge record counts the words of line `at` twice: its block
      is lines `start..at` followed by `subtitles[at:]`. */
  lemma MergedCountsLineTwice<T>(c: Chunker, videoId: string, texts: seq<string>, timestamps: seq<(T, T)>, p: Piece, r: Record<T>)
    requires |texts| == |timestamps| && MergedChunk(c, videoId, texts, timestamps, p, r)
    ensures r.lengthOfBlock == SumWords(texts[p.start..]) + WordCount(texts[p.at])
  {
    var block, rest := texts[p.start..p.at + 1], texts[p.at + 1..];
    assert texts[p.at..] == [texts[p.at]] + rest;
    assert texts[p.start..] == block + rest;
    SumWordsAppend(block, [texts[p.at]] + rest);
    SumWordsAppend([texts[p.at]], rest);
    SumWordsAppend(block, rest);
    SumWordsSingle(texts[p.at]);
  }

  /** No line occurs twice. */
  predicate Distinct<X(==)>(s: seq<X>) {
    forall a, b :: 0 <= a < b < |s| ==> s[a] != s[b]
  }

  lemma IndexOfDistinct<X>(s: seq<X>, i: nat)
    requires Distinct(s) && i < |s|
    ensures IndexOf(s, s[i]) == i
  {
  }

  /** `subtitles.index` finds the first line equal to a block's first line,
      so when no line repeats, every record starts at the start time of its
      own first line. */
  lemma StartTimes<T>(c: Chunker, videoId: string, texts: seq<string>, timestamps: seq<(T, T)>)
    requires |texts| == |timestamps| && Distinct(texts)
    ensures |TextChunks(c, videoId, texts, timestamps)| == |Blocks(c, texts)|
    ensures forall k :: 0 <= k < |Blocks(c, texts)| ==>
              TextChunks(c, videoId, texts, timestamps)[k].Chunk? &&
              TextChunks(c, videoId, texts, timestamps)[k].startTime == timestamps[Blocks(c, texts)[k].start].0
  {
    ChunksOfBlocks(c, videoId, texts, timestamps);
    forall k | 0 <= k < |Blocks(c, texts)|
      ensures TextChunks(c, videoId, texts, timestamps)[k].Chunk? &&
              TextChunks(c, videoId, texts, timestamps)[k].startTime == timestamps[Blocks(c, texts)[k].start].0
    {
      IndexOfDistinct(texts, Blocks(c, texts)[k].start);
    }
  }

  /** With `min_tolerable_threshold >= 0`, every line of a non-empty
      transcript belongs to the block of some record. */
  lemma EveryLineChunked<T>(c: Chunker, videoId: string, texts: seq<string>, timestamps: seq<(T, T)>, i: nat)
    requires |texts| == |timestamps| && c.minTolerableThreshold >= 0 && i < |texts|
    ensures |TextChunks(c, videoId, texts, timestamps)| == |Blocks(c, texts)|
    ensures exists k :: 0 <= k < |Blocks(c, texts)| && Holds(Blocks(c, texts)[k], i)
  {
    TextChunksBlocks(c, videoId, texts, timestamps);
    NothingDropped(c, Counts(texts), i);
  }
}
