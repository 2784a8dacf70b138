/**
 * What the blocks of `_chunk_by_length` (backend/chunker.py) hold
 * together: read one after the other, their lines are the transcript in
 * order, with the line at which a final tail merge fires read twice.
 */
module Coverage {
  import opened Chunking
  import opened Segmentation
  import opened LengthSpec

  /** The lines of the blocks `ps`, block after block. */
  function AllLines(texts: seq<string>, ps: seq<Piece>): seq<string>
    requires Within(ps, |texts|)
    decreases |ps|
  {
    if ps == [] then [] else Lines(texts, ps[0]) + AllLines(texts, ps[1..])
  }

  /** What a last block `last` reads after its own lines `start..at`: a
      tail merge reads line `at` a second time and then the lines after
      it, once. */
  function Extra(texts: seq<string>, last: Piece): seq<string>
    requires last.at < |texts|
  {
    match last.kind
    case Close => []
    case TailMerge => texts[last.at..]
  }

  /** The lines from `from` to the end of `last`, then its `Extra`. */
  function Span(texts: seq<string>, from: nat, last: Piece): seq<string>
    requires from <= last.at < |texts|
  {
    texts[from..last.at + 1] + Extra(texts, last)
  }

  lemma ChainedWithin(ps: seq<Piece>, from: nat, n: nat)
    requires Chained(ps, from, n)
    ensures Within(ps, n)
  {
  }

  /** Blocks that follow one another from `from` hold the span from `from`
      to their last block. */
  lemma {:induction false} ChainedLines(texts: seq<string>, ps: seq<Piece>, from: nat)
    requires Chained(ps, from, |texts|) && ps != []
    ensures Within(ps, |texts|) && from <= ps[|ps| - 1].at
    ensures AllLines(texts, ps) == Span(texts, from, ps[|ps| - 1])
    decreases |ps|
  {
    ChainedWithin(ps, from, |texts|);
    AllLinesCons(texts, ps);
    if |ps| == 1 {
      assert AllLines(texts, ps[1..]) == [];
    } else {
      var rest := ps[1..];
      ChainedRest(ps, from, |texts|);
      assert rest[|rest| - 1] == ps[|ps| - 1];
      ChainedLines(texts, rest, ps[0].at + 1);
      ChainedAfter(ps, from, |texts|, |ps| - 1);
      SpanPrepend(texts, from, ps[0].at, ps[|ps| - 1]);
    }
  }

  /** The lines of the first block come first. */
  lemma AllLinesCons(texts: seq<string>, ps: seq<Piece>)
    requires ps != [] && Within(ps, |texts|)
    ensures Within(ps[1..], |texts|)
    ensures AllLines(texts, ps) == Lines(texts, ps[0]) + AllLines(texts, ps[1..])
  {
  }

  /** A close block `from..a` before the span from `a + 1`. */
  lemma SpanPrepend(texts: seq<string>, from: nat, a: nat, last: Piece)
    requires from <= a < last.at < |texts|
    ensures texts[from..a + 1] + Span(texts, a + 1, last) == Span(texts, from, last)
  {
    assert texts[from..a + 1] + texts[a + 1..last.at + 1] == texts[from..last.at + 1];
  }

  /** Nothing but the duplicated tail is added and nothing is dropped: when
      `min_tolerable_threshold >= 0`, the blocks of a non-empty transcript
      hold all its lines in order; only the line `at` of a final tail merge
      is read twice, and the lines after it are read once. */
  lemma BlocksCoverTranscript(c: Chunker, texts: seq<string>)
    requires texts != [] && c.minTolerableThreshold >= 0
    ensures Blocks(c, texts) != []
    ensures var last := Blocks(c, texts)[|Blocks(c, texts)| - 1];
            last.kind == Close ==> AllLines(texts, Blocks(c, texts)) == texts
    ensures var last := Blocks(c, texts)[|Blocks(c, texts)| - 1];
            last.kind == TailMerge ==> AllLines(texts, Blocks(c, texts)) == texts[..last.at + 1] + texts[last.at..]
  {
    var lens := Counts(texts);
    PiecesChained(c, lens);
    ReachEnd(c, lens);
    ChainedLines(texts, Blocks(c, texts), 0);
    var last := Blocks(c, texts)[|Blocks(c, texts)| - 1];
    assert texts[0..last.at + 1] == texts[..last.at + 1];
    if last.kind == Close {
      assert texts[..last.at + 1] + [] == texts;
    }
  }
}
