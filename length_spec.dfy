/**
 * The records `_chunk_by_length` of backend/chunker.py yields for one
 * video, as specification functions over the blocks of `Segmentation`.
 */
module LengthSpec {
  import opened Words
  import opened Chunking
  import opened Segmentation

  /** A yielded record; `NaNRecord` is the record of the AttributeError
      fallback, whose block, size and times are all NaN. */
  datatype Record<T> =
    | Chunk(videoId: string, block: string, lengthOfBlock: nat, startTime: T, endTime: T)
    | NaNRecord(videoId: string)

  predicate AllText(subtitles: seq<Line>) {
    forall i :: 0 <= i < |subtitles| ==> subtitles[i].Text?
  }

  /** The strings of an all-string subtitle list. */
  function Texts(subtitles: seq<Line>): (texts: seq<string>)
    requires AllText(subtitles)
    ensures |texts| == |subtitles|
    ensures forall i :: 0 <= i < |subtitles| ==> subtitles[i] == Text(texts[i])
  {
    seq(|subtitles|, i requires 0 <= i < |subtitles| => subtitles[i].s)
  }

  /** `len(subtitle.strip().split())`, the count the loop adds per line;
      stripping does not change it. */
  function LineLength(s: string): (n: nat)
    ensures n == WordCount(s)
  {
    StripKeepsWords(s);
    WordCount(Strip(s))
  }

  /** The list comprehension inside `total_length`: one count per line
      (`LineLength`, which equals the line's `WordCount`). */
  function Counts(texts: seq<string>): (lens: seq<nat>)
    ensures |lens| == |texts|
    decreases |texts|
  {
    if texts == [] then [] else Counts(texts[..|texts| - 1]) + [WordCount(texts[|texts| - 1])]
  }

  /** The count of line `i` is its word count. */
  lemma {:induction false} CountsAt(texts: seq<string>, i: nat)
    requires i < |texts|
    ensures Counts(texts)[i] == WordCount(texts[i])
    decreases |texts|
  {
    if i < |texts| - 1 {
      CountsAt(texts[..|texts| - 1], i);
    }
  }

  /** `lens` holds the word count of each line of `texts`. */
  ghost predicate PerLine(lens: seq<nat>, texts: seq<string>) {
    |lens| == |texts| && forall i :: 0 <= i < |lens| ==> lens[i] == WordCount(texts[i])
  }

  lemma CountsPerLine(texts: seq<string>)
    ensures PerLine(Counts(texts), texts)
  {
    forall i | 0 <= i < |texts|
      ensures Counts(texts)[i] == WordCount(texts[i])
    {
      CountsAt(texts, i);
    }
  }

  /** The counts of any run of lines add up to that run's words. */
  lemma {:induction false} RangeWords(lens: seq<nat>, texts: seq<string>, i: nat, j: nat)
    requires PerLine(lens, texts) && i <= j <= |texts|
    ensures SumRange(lens, i, j) == SumWords(texts[i..j])
    decreases j - i
  {
    if i < j {
      RangeWords(lens, texts, i, j - 1);
      assert texts[i..j][..j - i - 1] == texts[i..j - 1];
    }
  }

  /** `total_length` counts every word of the transcript. */
  lemma CountsSum(texts: seq<string>)
    ensures Sum(Counts(texts)) == SumWords(texts)
  {
    CountsPerLine(texts);
    RangeWords(Counts(texts), texts, 0, |texts|);
    assert texts[0..|texts|] == texts;
  }

  /** The lines of an emitted block: the open block `start..at`, followed
      after a tail merge by `subtitles[at:]`. */
  function Lines(texts: seq<string>, p: Piece): (lines: seq<string>)
    requires p.start <= p.at < |texts|
    ensures lines != [] && lines[0] == texts[p.start]
  {
    match p.kind
    case Close => texts[p.start..p.at + 1]
    case TailMerge => texts[p.start..p.at + 1] + texts[p.at..]
  }

  /** `subtitles.index(x)`: the first position holding `x`. */
  function IndexOf<X(==)>(s: seq<X>, x: X): (j: nat)
    requires x in s
    ensures j < |s| && s[j] == x
    ensures forall k :: 0 <= k < j ==> s[k] != x
  {
    if s[0] == x then 0 else 1 + IndexOf(s[1..], x)
  }

  /** The blocks the loop emits for the lines `texts`. */
  function Blocks(c: Chunker, texts: seq<string>): (ps: seq<Piece>)
    ensures Within(ps, |texts|)
  {
    PiecesChained(c, Counts(texts));
    Pieces(c, Counts(texts))
  }

  /** `pack(...)` for a block that ends at `endTime`: its lines joined by
      spaces, the sum of their word counts and the start time of the first
      line of the transcript equal to the block's first line. */
  function Emit<T>(videoId: string, texts: seq<string>, timestamps: seq<(T, T)>, block: seq<string>, endTime: T): (r: Record<T>)
    requires |texts| == |timestamps| && block != [] && block[0] in texts
    ensures r.Chunk? && r.videoId == videoId && r.endTime == endTime
    ensures r.startTime == timestamps[IndexOf(texts, block[0])].0
  {
    Chunk(videoId, Join(block), SumWords(block), timestamps[IndexOf(texts, block[0])].0, endTime)
  }

  /** The record of an emitted block: it ends at line `at` (close) or at
      the last line (tail merge). */
  function ToRecord<T>(videoId: string, texts: seq<string>, timestamps: seq<(T, T)>, p: Piece): Record<T>
    requires |texts| == |timestamps| && p.start <= p.at < |texts|
  {
    var lines := Lines(texts, p);
    Emit(videoId, texts, timestamps, lines,
         match p.kind
         case Close => timestamps[p.at].1
         case TailMerge => timestamps[|timestamps| - 1].1)
  }

  /** The records of the blocks `ps`, in order. */
  function ToRecords<T>(videoId: string, texts: seq<string>, timestamps: seq<(T, T)>, ps: seq<Piece>): (rs: seq<Record<T>>)
    requires |texts| == |timestamps| && Within(ps, |texts|)
    ensures |rs| == |ps|
    decreases |ps|
  {
    if ps == [] then []
    else [ToRecord(videoId, texts, timestamps, ps[0])] + ToRecords(videoId, texts, timestamps, ps[1..])
  }

  /** The records the loop still yields from line `idx` on, entered in
      state `st`. It takes the three branches of `_chunk_by_length` on
      records, so that `LengthStrategy.SegmentTexts` is proved against it
      one iteration at a time. `Segmentation.PiecesFrom` takes the same
      branches on the word counts alone, where the block structure is
      proved; `LengthRecords.TextChunksBlocks` proves that the two agree. */
  function RecordsFrom<T>(c: Chunker, videoId: string, texts: seq<string>, timestamps: seq<(T, T)>, lens: seq<nat>, total: int, idx: nat, st: State): seq<Record<T>>
    requires |texts| == |timestamps| == |lens| && st.start <= idx <= |texts|
    decreases |texts| - idx
  {
    if idx == |texts| then []
    else
      var lengthOfBlock := st.lengthOfBlock + lens[idx];
      var covered := st.coveredLength + lens[idx];
      var block := texts[st.start..idx + 1];
      assert block[0] == texts[st.start];
      if lengthOfBlock >= c.expectedThreshold && total - covered >= c.minTolerableThreshold then
        [Emit(videoId, texts, timestamps, block, timestamps[idx].1)]
        + RecordsFrom(c, videoId, texts, timestamps, lens, total, idx + 1, State(idx + 1, 0, covered))
      else if total - covered <= c.minTolerableThreshold then
        [Emit(videoId, texts, timestamps, block + texts[idx..], timestamps[|timestamps| - 1].1)]
      else
        RecordsFrom(c, videoId, texts, timestamps, lens, total, idx + 1, State(st.start, lengthOfBlock, covered))
  }

  lemma RecordsFromClose<T>(c: Chunker, videoId: string, texts: seq<string>, timestamps: seq<(T, T)>, lens: seq<nat>, total: int, idx: nat, st: State)
    requires |texts| == |timestamps| == |lens| && st.start <= idx < |texts|
    requires st.lengthOfBlock + lens[idx] >= c.expectedThreshold
    requires total - (st.coveredLength + lens[idx]) >= c.minTolerableThreshold
    ensures texts[st.start..idx + 1][0] in texts
    ensures RecordsFrom(c, videoId, texts, timestamps, lens, total, idx, st) ==
            [Emit(videoId, texts, timestamps, texts[st.start..idx + 1], timestamps[idx].1)]
            + RecordsFrom(c, videoId, texts, timestamps, lens, total, idx + 1, State(idx + 1, 0, st.coveredLength + lens[idx]))
  {
    assert texts[st.start..idx + 1][0] == texts[st.start];
  }

  lemma RecordsFromMerge<T>(c: Chunker, videoId: string, texts: seq<string>, timestamps: seq<(T, T)>, lens: seq<nat>, total: int, idx: nat, st: State)
    requires |texts| == |timestamps| == |lens| && st.start <= idx < |texts|
    requires !(st.lengthOfBlock + lens[idx] >= c.expectedThreshold &&
               total - (st.coveredLength + lens[idx]) >= c.minTolerableThreshold)
    requires total - (st.coveredLength + lens[idx]) <= c.minTolerableThreshold
    ensures (texts[st.start..idx + 1] + texts[idx..])[0] in texts
    ensures RecordsFrom(c, videoId, texts, timestamps, lens, total, idx, st) ==
            [Emit(videoId, texts, timestamps, texts[st.start..idx + 1] + texts[idx..], timestamps[|timestamps| - 1].1)]
  {
    assert (texts[st.start..idx + 1] + texts[idx..])[0] == texts[st.start];
  }

  lemma RecordsFromContinue<T>(c: Chunker, videoId: string, texts: seq<string>, timestamps: seq<(T, T)>, lens: seq<nat>, total: int, idx: nat, st: State)
    requires |texts| == |timestamps| == |lens| && st.start <= idx < |texts|
    requires !(st.lengthOfBlock + lens[idx] >= c.expectedThreshold &&
               total - (st.coveredLength + lens[idx]) >= c.minTolerableThreshold)
    requires total - (st.coveredLength + lens[idx]) > c.minTolerableThreshold
    ensures RecordsFrom(c, videoId, texts, timestamps, lens, total, idx, st) ==
            RecordsFrom(c, videoId, texts, timestamps, lens, total, idx + 1,
                        State(st.start, st.lengthOfBlock + lens[idx], st.coveredLength + lens[idx]))
  {
  }

  /** The records of an all-string transcript: the loop starts at line 0
      with an empty block, nothing covered and `total_length` the sum of
      the line counts. */
  function TextChunks<T>(c: Chunker, videoId: string, texts: seq<string>, timestamps: seq<(T, T)>): seq<Record<T>>
    requires |texts| == |timestamps|
  {
    RecordsFrom(c, videoId, texts, timestamps, Counts(texts), Sum(Counts(texts)), 0, State(0, 0, 0))
  }

  /** Everything `_chunk_by_length` yields for one video. Before any yield,
      `total_length` applies `strip` to every line, so a single non-string
      line raises AttributeError and the output is the one all-NaN record;
      otherwise `subtitles.index` looks a line up among the strings. */
  function LengthChunks<T>(c: Chunker, videoId: string, subtitles: seq<Line>, timestamps: seq<(T, T)>): seq<Record<T>>
    requires |subtitles| == |timestamps| > 0
  {
    if !AllText(subtitles) then [NaNRecord(videoId)]
    else TextChunks(c, videoId, Texts(subtitles), timestamps)
  }
}
