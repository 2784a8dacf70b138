/**
 * The segmentation performed by the loop of `_chunk_by_length`
 * (backend/chunker.py), seen through the word count of each line: which
 * blocks the loop emits, by which branch, and where each begins and ends.
 * The lines themselves only matter through their counts here; the module
 * LengthStrategy turns the blocks into records.
 */
module Segmentation {
  import opened Chunking

  /** `sum(xs[i:j])`. */
  function SumRange(xs: seq<nat>, i: nat, j: nat): nat
    requires i <= j <= |xs|
    decreases j - i
  {
    if i == j then 0 else SumRange(xs, i, j - 1) + xs[j - 1]
  }

  /** `sum(xs)`. */
  function Sum(xs: seq<nat>): nat {
    SumRange(xs, 0, |xs|)
  }

  /** A sum over a range is the sum over its two parts. */
  lemma {:induction false} SumRangeSplit(xs: seq<nat>, i: nat, k: nat, j: nat)
    requires i <= k <= j <= |xs|
    ensures SumRange(xs, i, j) == SumRange(xs, i, k) + SumRange(xs, k, j)
    decreases j - k
  {
    if k < j {
      SumRangeSplit(xs, i, k, j - 1);
    }
  }

  /** The `state` dict of the loop. The open block is always the run of
      lines from `start` up to the current index, so it is represented by
      `start`. */
  datatype State = State(start: nat, lengthOfBlock: nat, coveredLength: nat)

  /** The branch that emitted a block. */
  datatype Kind = Close | TailMerge

  /** An emitted block: the branch that emitted it, the index of the first
      line of the open block and the loop index `idx` at which it was
      emitted. A close block holds lines `start..at`; a tail-merge block
      holds those followed by every line from `at` on. */
  datatype Piece = Piece(kind: Kind, start: nat, at: nat)

  /** The blocks emitted from loop index `idx` on, in state `st`, for lines
      with word counts `lens` and `total_length` equal to `total`. The
      three branches are those of the loop body; the tail-merge branch
      ends the loop. */
  function PiecesFrom(c: Chunker, lens: seq<nat>, total: int, idx: nat, st: State): seq<Piece>
    requires st.start <= idx <= |lens|
    decreases |lens| - idx
  {
    if idx == |lens| then []
    else
      var lengthOfBlock := st.lengthOfBlock + lens[idx];
      var covered := st.coveredLength + lens[idx];
      if lengthOfBlock >= c.expectedThreshold && total - covered >= c.minTolerableThreshold then
        [Piece(Close, st.start, idx)] + PiecesFrom(c, lens, total, idx + 1, State(idx + 1, 0, covered))
      else if total - covered <= c.minTolerableThreshold then
        [Piece(TailMerge, st.start, idx)]
      else
        PiecesFrom(c, lens, total, idx + 1, State(st.start, lengthOfBlock, covered))
  }

  /** The blocks of a whole transcript: the loop starts at index 0 with an
      empty block and nothing covered. */
  function Pieces(c: Chunker, lens: seq<nat>): seq<Piece> {
    PiecesFrom(c, lens, Sum(lens), 0, State(0, 0, 0))
  }

  /** The blocks follow one another from `from` on: each lies within the
      lines, the first starts at `from`, and every block but the last is a
      close block after which the next block starts on the following
      line. */
  predicate Chained(ps: seq<Piece>, from: nat, n: nat) {
    (forall k :: 0 <= k < |ps| ==> from <= ps[k].start <= ps[k].at < n) &&
    (ps != [] ==> ps[0].start == from) &&
    (forall k :: 0 <= k < |ps| - 1 ==> ps[k].kind == Close && ps[k + 1].start == ps[k].at + 1)
  }

  lemma ChainedCons(p: Piece, rest: seq<Piece>, from: nat, n: nat)
    requires p.kind == Close && from <= p.start <= p.at < n
    requires Chained(rest, p.at + 1, n)
    requires p.start == from
    ensures Chained([p] + rest, from, n)
  {
    var ps := [p] + rest;
    assert forall k :: 0 < k < |ps| ==> ps[k] == rest[k - 1];
  }

  lemma {:induction false} PiecesFromChained(c: Chunker, lens: seq<nat>, total: int, idx: nat, st: State)
    requires st.start <= idx <= |lens|
    ensures Chained(PiecesFrom(c, lens, total, idx, st), st.start, |lens|)
    decreases |lens| - idx
  {
    if idx < |lens| {
      var len := st.lengthOfBlock + lens[idx];
      var covered := st.coveredLength + lens[idx];
      if len >= c.expectedThreshold && total - covered >= c.minTolerableThreshold {
        var st' := State(idx + 1, 0, covered);
        PiecesFromChained(c, lens, total, idx + 1, st');
        ChainedCons(Piece(Close, st.start, idx), PiecesFrom(c, lens, total, idx + 1, st'), st.start, |lens|);
      } else if total - covered > c.minTolerableThreshold {
        PiecesFromChained(c, lens, total, idx + 1, State(st.start, len, covered));
      }
    }
  }

  /** The blocks of a whole transcript start at line 0 and follow one another. */
  lemma PiecesChained(c: Chunker, lens: seq<nat>)
    ensures Chained(Pieces(c, lens), 0, |lens|)
  {
    PiecesFromChained(c, lens, Sum(lens), 0, State(0, 0, 0));
  }

  /** The loop invariant: the open block's count is that of the lines from
      `start` to `idx`, and `covered_length` counts every line before `idx`. */
  ghost predicate Reachable(lens: seq<nat>, idx: nat, st: State) {
    st.start <= idx <= |lens| &&
    st.lengthOfBlock == SumRange(lens, st.start, idx) &&
    st.coveredLength == SumRange(lens, 0, idx)
  }

  lemma StartReachable(lens: seq<nat>)
    ensures Reachable(lens, 0, State(0, 0, 0))
  {
  }

  /** One pass of the loop body keeps the invariant. */
  lemma Step(lens: seq<nat>, idx: nat, st: State)
    requires Reachable(lens, idx, st) && idx < |lens|
    ensures SumRange(lens, st.start, idx + 1) == st.lengthOfBlock + lens[idx]
    ensures SumRange(lens, 0, idx + 1) == st.coveredLength + lens[idx]
    ensures Reachable(lens, idx + 1, State(idx + 1, 0, st.coveredLength + lens[idx]))
    ensures Reachable(lens, idx + 1, State(st.start, st.lengthOfBlock + lens[idx], st.coveredLength + lens[idx]))
  {
  }

  /** `total_length - covered_length` once line `at` has been counted. */
  function Remaining(lens: seq<nat>, at: nat): int
    requires at < |lens|
  {
    Sum(lens) - SumRange(lens, 0, at + 1)
  }

  /** The condition of the close branch held for the block. */
  ghost predicate Closed(c: Chunker, lens: seq<nat>, p: Piece) {
    p.start <= p.at < |lens| &&
    SumRange(lens, p.start, p.at + 1) >= c.expectedThreshold &&
    Remaining(lens, p.at) >= c.minTolerableThreshold
  }

  /** The close condition failed and the tail-merge condition held. */
  ghost predicate Merged(c: Chunker, lens: seq<nat>, p: Piece) {
    p.start <= p.at < |lens| &&
    !(SumRange(lens, p.start, p.at + 1) >= c.expectedThreshold &&
      Remaining(lens, p.at) >= c.minTolerableThreshold) &&
    Remaining(lens, p.at) <= c.minTolerableThreshold
  }

  ghost predicate Justified(c: Chunker, lens: seq<nat>, p: Piece) {
    match p.kind
    case Close => Closed(c, lens, p)
    case TailMerge => Merged(c, lens, p)
  }

  /** Every block lies within the `n` lines. */
  predicate Within(ps: seq<Piece>, n: nat) {
    forall k :: 0 <= k < |ps| ==> ps[k].start <= ps[k].at < n
  }

  lemma Regroup<X>(a: seq<X>, x: X, b: seq<X>)
    ensures a + ([x] + b) == (a + [x]) + b
  {
  }

  /** `PiecesFrom` when the close branch fires. */
  lemma UnfoldClose(c: Chunker, lens: seq<nat>, total: int, idx: nat, st: State)
    requires st.start <= idx < |lens|
    requires st.lengthOfBlock + lens[idx] >= c.expectedThreshold
    requires total - (st.coveredLength + lens[idx]) >= c.minTolerableThreshold
    ensures PiecesFrom(c, lens, total, idx, st) ==
            [Piece(Close, st.start, idx)] + PiecesFrom(c, lens, total, idx + 1, State(idx + 1, 0, st.coveredLength + lens[idx]))
  {
  }

  /** `PiecesFrom` when the tail-merge branch fires. */
  lemma UnfoldMerge(c: Chunker, lens: seq<nat>, total: int, idx: nat, st: State)
    requires st.start <= idx < |lens|
    requires !(st.lengthOfBlock + lens[idx] >= c.expectedThreshold &&
               total - (st.coveredLength + lens[idx]) >= c.minTolerableThreshold)
    requires total - (st.coveredLength + lens[idx]) <= c.minTolerableThreshold
    ensures PiecesFrom(c, lens, total, idx, st) == [Piece(TailMerge, st.start, idx)]
  {
  }

  /** `PiecesFrom` when neither branch fires. */
  lemma UnfoldContinue(c: Chunker, lens: seq<nat>, total: int, idx: nat, st: State)
    requires st.start <= idx < |lens|
    requires !(st.lengthOfBlock + lens[idx] >= c.expectedThreshold &&
               total - (st.coveredLength + lens[idx]) >= c.minTolerableThreshold)
    requires total - (st.coveredLength + lens[idx]) > c.minTolerableThreshold
    ensures PiecesFrom(c, lens, total, idx, st) ==
            PiecesFrom(c, lens, total, idx + 1, State(st.start, st.lengthOfBlock + lens[idx], st.coveredLength + lens[idx]))
  {
  }

  /** The head of `PiecesFrom` when the close branch fires. */
  lemma CloseHead(c: Chunker, lens: seq<nat>, idx: nat, st: State)
    requires Reachable(lens, idx, st) && idx < |lens|
    requires st.lengthOfBlock + lens[idx] >= c.expectedThreshold
    requires Sum(lens) - (st.coveredLength + lens[idx]) >= c.minTolerableThreshold
    ensures Closed(c, lens, Piece(Close, st.start, idx))
  {
    Step(lens, idx, st);
  }

  /** The head of `PiecesFrom` when the tail-merge branch fires. */
  lemma MergeHead(c: Chunker, lens: seq<nat>, idx: nat, st: State)
    requires Reachable(lens, idx, st) && idx < |lens|
    requires !(st.lengthOfBlock + lens[idx] >= c.expectedThreshold &&
               Sum(lens) - (st.coveredLength + lens[idx]) >= c.minTolerableThreshold)
    requires Sum(lens) - (st.coveredLength + lens[idx]) <= c.minTolerableThreshold
    ensures Merged(c, lens, Piece(TailMerge, st.start, idx))
  {
    Step(lens, idx, st);
  }

  /** Each emitted block satisfies the condition of the branch that emitted it. */
  lemma {:induction false} PiecesFromJustified(c: Chunker, lens: seq<nat>, idx: nat, st: State)
    requires Reachable(lens, idx, st)
    ensures forall k :: 0 <= k < |PiecesFrom(c, lens, Sum(lens), idx, st)| ==>
              Justified(c, lens, PiecesFrom(c, lens, Sum(lens), idx, st)[k])
    decreases |lens| - idx
  {
    if idx < |lens| {
      var total := Sum(lens);
      var len := st.lengthOfBlock + lens[idx];
      var covered := st.coveredLength + lens[idx];
      Step(lens, idx, st);
      if len >= c.expectedThreshold && total - covered >= c.minTolerableThreshold {
        CloseHead(c, lens, idx, st);
        var st' := State(idx + 1, 0, covered);
        PiecesFromJustified(c, lens, idx + 1, st');
        JustifiedCons(c, lens, Piece(Close, st.start, idx), PiecesFrom(c, lens, total, idx + 1, st'));
      } else if total - covered <= c.minTolerableThreshold {
        MergeHead(c, lens, idx, st);
      } else {
        PiecesFromJustified(c, lens, idx + 1, State(st.start, len, covered));
      }
    }
  }

  lemma JustifiedCons(c: Chunker, lens: seq<nat>, p: Piece, rest: seq<Piece>)
    requires Justified(c, lens, p)
    requires forall k :: 0 <= k < |rest| ==> Justified(c, lens, rest[k])
    ensures forall k :: 0 <= k < |[p] + rest| ==> Justified(c, lens, ([p] + rest)[k])
  {
    forall k | 0 <= k < |[p] + rest|
      ensures Justified(c, lens, ([p] + rest)[k])
    {
      if k > 0 {
        assert ([p] + rest)[k] == rest[k - 1];
      }
    }
  }

  /** Every block of a whole transcript satisfies the condition of the
      branch that emitted it. */
  lemma PiecesJustified(c: Chunker, lens: seq<nat>)
    ensures forall k :: 0 <= k < |Pieces(c, lens)| ==> Justified(c, lens, Pieces(c, lens)[k])
  {
    StartReachable(lens);
    PiecesFromJustified(c, lens, 0, State(0, 0, 0));
    assert Pieces(c, lens) == PiecesFrom(c, lens, Sum(lens), 0, State(0, 0, 0));
  }

  /** The blocks end with a tail merge or with a close block closed by the
      final line `n - 1`. */
  predicate ReachesEnd(ps: seq<Piece>, n: nat) {
    ps != [] && (ps[|ps| - 1].kind == Close ==> ps[|ps| - 1].at == n - 1)
  }

  lemma ReachesEndCons(p: Piece, rest: seq<Piece>, n: nat)
    requires ReachesEnd(rest, n)
    ensures ReachesEnd([p] + rest, n)
  {
    assert ([p] + rest)[|rest|] == rest[|rest| - 1];
  }

  /** On the final line no words remain, so with `min_tolerable_threshold
      >= 0` either the close or the tail-merge condition holds there. */
  lemma LastLineEmits(c: Chunker, lens: seq<nat>, idx: nat, st: State)
    requires Reachable(lens, idx, st) && idx == |lens| - 1 && c.minTolerableThreshold >= 0
    ensures ReachesEnd(PiecesFrom(c, lens, Sum(lens), idx, st), |lens|)
  {
    Step(lens, idx, st);
  }

  /** When `min_tolerable_threshold >= 0`, the loop emits something before
      it runs out of lines, and a close block that comes last was closed by
      the final line. */
  lemma {:induction false} PiecesFromReachEnd(c: Chunker, lens: seq<nat>, idx: nat, st: State)
    requires Reachable(lens, idx, st) && idx < |lens| && c.minTolerableThreshold >= 0
    ensures ReachesEnd(PiecesFrom(c, lens, Sum(lens), idx, st), |lens|)
    decreases |lens| - idx
  {
    var total := Sum(lens);
    var len := st.lengthOfBlock + lens[idx];
    var covered := st.coveredLength + lens[idx];
    if idx + 1 == |lens| {
      LastLineEmits(c, lens, idx, st);
    } else if len >= c.expectedThreshold && total - covered >= c.minTolerableThreshold {
      var st' := State(idx + 1, 0, covered);
      Step(lens, idx, st);
      PiecesFromReachEnd(c, lens, idx + 1, st');
      ReachesEndCons(Piece(Close, st.start, idx), PiecesFrom(c, lens, total, idx + 1, st'), |lens|);
    } else if total - covered > c.minTolerableThreshold {
      Step(lens, idx, st);
      PiecesFromReachEnd(c, lens, idx + 1, State(st.start, len, covered));
    }
  }

  /** Nothing is dropped from a non-empty transcript when
      `min_tolerable_threshold >= 0`: there is a last block, and it is a
      tail merge or a close block ending at the final line (with
      `PiecesChained`, the blocks then account for every line). */
  lemma ReachEnd(c: Chunker, lens: seq<nat>)
    requires lens != [] && c.minTolerableThreshold >= 0
    ensures ReachesEnd(Pieces(c, lens), |lens|)
  {
    StartReachable(lens);
    PiecesFromReachEnd(c, lens, 0, State(0, 0, 0));
    assert Pieces(c, lens) == PiecesFrom(c, lens, Sum(lens), 0, State(0, 0, 0));
  }

  /** A transcript with fewer words than `min_tolerable_threshold` is one
      tail-merge block emitted at line 0. */
  lemma ShortTranscript(c: Chunker, lens: seq<nat>)
    requires lens != [] && Sum(lens) < c.minTolerableThreshold
    ensures Pieces(c, lens) == [Piece(TailMerge, 0, 0)]
  {
    SumRangeSplit(lens, 0, 1, |lens|);
  }

  /** Line `i` belongs to block `p`: a close block holds lines
      `start..at`, a tail-merge block every line from `start` on. */
  predicate Holds(p: Piece, i: nat) {
    p.start <= i && (i <= p.at || p.kind == TailMerge)
  }

  /** A block begins after the end of every block before it. */
  lemma {:induction false} ChainedAfter(ps: seq<Piece>, from: nat, n: nat, k: nat)
    requires Chained(ps, from, n) && 0 < k < |ps|
    ensures ps[k].start > ps[0].at
    decreases k
  {
    if k > 1 {
      ChainedAfter(ps, from, n, k - 1);
    }
  }

  /** The blocks after the first follow one another from the line after it. */
  lemma ChainedRest(ps: seq<Piece>, from: nat, n: nat)
    requires Chained(ps, from, n) && |ps| > 1
    ensures Chained(ps[1..], ps[0].at + 1, n)
  {
    forall k | 0 < k < |ps|
      ensures ps[k].start > ps[0].at
    {
      ChainedAfter(ps, from, n, k);
    }
    assert forall k :: 0 <= k < |ps| - 1 ==> ps[1..][k] == ps[k + 1];
  }

  /** Blocks that follow one another from `from` and reach the end hold
      every line from `from` on. */
  lemma {:induction false} ChainedCovers(ps: seq<Piece>, from: nat, n: nat, i: nat)
    requires Chained(ps, from, n) && ReachesEnd(ps, n) && from <= i < n
    ensures exists k :: 0 <= k < |ps| && Holds(ps[k], i)
    decreases |ps|
  {
    if !Holds(ps[0], i) && |ps| > 1 {
      var rest := ps[1..];
      ChainedRest(ps, from, n);
      assert rest[|rest| - 1] == ps[|ps| - 1];
      ChainedCovers(rest, ps[0].at + 1, n, i);
      var k :| 0 <= k < |rest| && Holds(rest[k], i);
      assert Holds(ps[k + 1], i);
    }
  }

  /** With `min_tolerable_threshold >= 0`, every line of a non-empty
      transcript belongs to a block: nothing is dropped. */
  lemma NothingDropped(c: Chunker, lens: seq<nat>, i: nat)
    requires c.minTolerableThreshold >= 0 && i < |lens|
    ensures exists k :: 0 <= k < |Pieces(c, lens)| && Holds(Pieces(c, lens)[k], i)
  {
    PiecesChained(c, lens);
    ReachEnd(c, lens);
    ChainedCovers(Pieces(c, lens), 0, |lens|, i);
  }
}
