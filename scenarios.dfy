/**
 * Concrete runs of `_chunk_by_length` of backend/chunker.py, worked out
 * through the step lemmas of the loop.
 */
module Scenarios {
  import opened Words
  import opened Chunking
  import opened Segmentation
  import opened LengthSpec
  import opened LengthRecords
  import opened GetChunks
  import opened TimeOrder

  const TenLines: seq<string> := ["a", "b", "c", "d", "e", "f", "g", "h", "i", "j"]

  /** Line `i` spans `(i, i + 1)`. */
  function Stamps(n: nat): (ts: seq<(int, int)>)
    ensures |ts| == n && forall i :: 0 <= i < n ==> ts[i] == (i, i + 1)
  {
    seq(n, i requires 0 <= i < n => (i, i + 1))
  }

  lemma OneWord(s: string)
    requires |s| == 1 && !IsSpace(s[0])
    ensures WordCount(s) == 1
  {
    assert s[1..] == [];
    assert Split(s) == [[s[0]]];
  }

  /** Each of the ten lines is one word, so `total_length` is 10. */
  lemma TenCounts()
    ensures Counts(TenLines) == [1, 1, 1, 1, 1, 1, 1, 1, 1, 1]
    ensures Sum(Counts(TenLines)) == 10
  {
    var lens := Counts(TenLines);
    forall i | 0 <= i < 10
      ensures lens[i] == 1
    {
      CountsAt(TenLines, i);
      OneWord(TenLines[i]);
    }
    assert lens == [1, 1, 1, 1, 1, 1, 1, 1, 1, 1];
  }

  /** With `expected_threshold` 10 and `min_tolerable_threshold` 5, ten
      one-word lines never close a block: at line 4 five words remain and
      the tail merge fires, so the one record holds lines 0 to 4 and then
      lines 4 to 9 again, eleven lines and eleven words, from time 0 to 10. */
  lemma TenOneWordLines()
    ensures TextChunks(Chunker(Length, 10, 5), "v", TenLines, Stamps(10)) ==
            [Chunk("v", Join(TenLines[..5] + TenLines[4..]), 11, 0, 10)]
  {
    var c := Chunker(Length, 10, 5);
    TenCounts();
    TenPieces();
    TextChunksBlocks(c, "v", TenLines, Stamps(10));
    var p := Piece(TailMerge, 0, 4);
    assert ToRecords("v", TenLines, Stamps(10), [p]) == [ToRecord("v", TenLines, Stamps(10), p)];
    TenMergedRecord();
  }

  /** Over ten one-word lines the loop continues four times and then
      merges the tail at line 4. */
  lemma TenPieces()
    ensures Pieces(Chunker(Length, 10, 5), [1, 1, 1, 1, 1, 1, 1, 1, 1, 1]) == [Piece(TailMerge, 0, 4)]
  {
    var c := Chunker(Length, 10, 5);
    var lens: seq<nat> := [1, 1, 1, 1, 1, 1, 1, 1, 1, 1];
    assert Sum(lens) == 10;
    UnfoldContinue(c, lens, 10, 0, State(0, 0, 0));
    UnfoldContinue(c, lens, 10, 1, State(0, 1, 1));
    UnfoldContinue(c, lens, 10, 2, State(0, 2, 2));
    UnfoldContinue(c, lens, 10, 3, State(0, 3, 3));
    UnfoldMerge(c, lens, 10, 4, State(0, 4, 4));
  }

  /** The record of the tail merge at line 4. */
  lemma TenMergedRecord()
    ensures TenLines[0..5][0] in TenLines
    ensures Emit("v", TenLines, Stamps(10), TenLines[0..5] + TenLines[4..], Stamps(10)[9].1) ==
            Chunk("v", Join(TenLines[..5] + TenLines[4..]), 11, 0, 10)
  {
    assert TenLines[0..5] == TenLines[..5];
    assert IndexOf(TenLines, TenLines[0]) == 0;
    TenMergedWords();
  }

  /** Lines 0 to 4 and lines 4 to 9 hold eleven words. */
  lemma TenMergedWords()
    ensures SumWords(TenLines[..5] + TenLines[4..]) == 11
  {
    TenCounts();
    var lens := Counts(TenLines);
    SumWordsAppend(TenLines[..5], TenLines[4..]);
    CountsPerLine(TenLines);
    RangeWords(lens, TenLines, 0, 5);
    RangeWords(lens, TenLines, 4, 10);
    assert TenLines[0..5] == TenLines[..5];
    assert TenLines[4..10] == TenLines[4..];
  }

  /** With a negative `min_tolerable_threshold` the tail merge can never
      fire on the last line, and a one-line transcript of one word below
      `expected_threshold` yields nothing at all. */
  lemma NegativeMinDrops()
    ensures TextChunks(Chunker(Length, 10, -1), "v", ["a"], Stamps(1)) == []
  {
    var c := Chunker(Length, 10, -1);
    OneWord("a");
    CountsAt(["a"], 0);
    var lens := Counts(["a"]);
    assert lens == [1];
    assert Pieces(c, lens) == [] by {
      assert Sum(lens) == 1;
      UnfoldContinue(c, lens, 1, 0, State(0, 0, 0));
    }
    TextChunksBlocks(c, "v", ["a"], Stamps(1));
  }

  /** The same transcript as the only video: no record reaches the
      frame, and indexing it by `videoId` fails. */
  lemma NegativeMinNoIndex()
    ensures GetChunks.GetChunks(Chunker(Length, 10, -1), [Video("v", [Text("a")], Stamps(1))]) == Err(MissingIndexColumn)
  {
    var v := Video("v", [Text("a")], Stamps(1));
    assert Texts(v.subtitles) == ["a"];
    NegativeMinDrops();
    assert Records(Chunker(Length, 10, -1), v) == [];
    assert [v][1..] == [];
  }

  const Repeated: seq<string> := ["x", "y", "x"]

  /** Three one-word lines with `expected_threshold` 1 and
      `min_tolerable_threshold` 0 close a block on every line. */
  lemma RepeatedPieces()
    ensures Counts(Repeated) == [1, 1, 1]
    ensures Pieces(Chunker(Length, 1, 0), Counts(Repeated)) ==
            [Piece(Close, 0, 0), Piece(Close, 1, 1), Piece(Close, 2, 2)]
  {
    var c := Chunker(Length, 1, 0);
    var lens := Counts(Repeated);
    forall i | 0 <= i < 3
      ensures lens[i] == 1
    {
      CountsAt(Repeated, i);
      OneWord(Repeated[i]);
    }
    assert lens == [1, 1, 1];
    assert Sum(lens) == 3;
    UnfoldClose(c, lens, 3, 0, State(0, 0, 0));
    UnfoldClose(c, lens, 3, 1, State(1, 0, 1));
    UnfoldClose(c, lens, 3, 2, State(2, 0, 2));
  }

  /** The third block is line 2 alone, but `subtitles.index("x")` finds
      line 0, so its record starts at line 0's start time 0 while it ends
      at line 2's end time 3. */
  lemma RepeatedLineStartTime()
    ensures |TextChunks(Chunker(Length, 1, 0), "v", Repeated, Stamps(3))| == 3
    ensures TextChunks(Chunker(Length, 1, 0), "v", Repeated, Stamps(3))[2] == Chunk("v", "x", 1, 0, 3)
  {
    var c := Chunker(Length, 1, 0);
    RepeatedPieces();
    TextChunksBlocks(c, "v", Repeated, Stamps(3));
    ToRecordsAt("v", Repeated, Stamps(3), Blocks(c, Repeated), 2);
    RepeatedThirdRecord();
  }

  /** The lookup by text breaks time order: over intervals that never go
      backwards, the second record ends at 2 and the third, which
      `subtitles.index` starts at line 0, starts at 0. */
  lemma RepeatedOutOfOrder()
    ensures Forward(Stamps(3))
    ensures |TextChunks(Chunker(Length, 1, 0), "v", Repeated, Stamps(3))| == 3
    ensures TextChunks(Chunker(Length, 1, 0), "v", Repeated, Stamps(3))[1].endTime == 2
    ensures TextChunks(Chunker(Length, 1, 0), "v", Repeated, Stamps(3))[2].startTime == 0
  {
    var c := Chunker(Length, 1, 0);
    RepeatedLineStartTime();
    ToRecordsAt("v", Repeated, Stamps(3), Blocks(c, Repeated), 1);
    RecordOfClose("v", Repeated, Stamps(3), 1, 1);
  }

  lemma RepeatedThirdRecord()
    ensures Repeated[2..3][0] in Repeated
    ensures Emit("v", Repeated, Stamps(3), Repeated[2..3], Stamps(3)[2].1) == Chunk("v", "x", 1, 0, 3)
  {
    assert Repeated[2..3] == ["x"];
    assert IndexOf(Repeated, "x") == 0;
    OneWord("x");
    assert SumWords(["x"]) == 1 by {
      assert ["x"][..0] == [];
    }
  }
}
