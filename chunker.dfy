/**
 * The configuration of the transcript chunker of backend/chunker.py
 * (`Chunker.__init__`) and the values its strategies work on.
 */
module Chunking {
  /** A subtitle cell: a string, or a value without string methods (the NaN
      a failed transcript fetch leaves behind). */
  datatype Line = Text(s: string) | NonString

  datatype Strategy = Time | Length

  datatype Error =
    | InvalidChunkBy         // the assertion in `__init__`
    | NotImplemented         // `_chunk_by_time`
    | NothingToConcatenate   // `pd.concat` of an empty list in `get_chunks`
    | MissingIndexColumn     // `set_index(["videoId", ...])` on a frame without rows

  datatype Result<+V> = Ok(value: V) | Err(error: Error)

  /** The configured chunker; its fields are set once, in `__init__`. */
  datatype Chunker = Chunker(chunkBy: Strategy, expectedThreshold: int, minTolerableThreshold: int)

  function DefaultExpected(s: Strategy): int {
    match s
    case Length => 225
    case Time => 60
  }

  function DefaultMinTolerable(s: Strategy): int {
    match s
    case Length => 150
    case Time => 45
  }

  /** `kwargs.get(key, default)`. */
  function Get(kwargs: map<string, int>, key: string, default: int): int {
    if key in kwargs then kwargs[key] else default
  }

  /** `Chunker(chunk_by, **kwargs)`: the strategy must be "time" or
      "length"; each threshold is its keyword argument when given and the
      strategy's default (225/150 for length, 60/45 for time) otherwise,
      independently of the other. */
  function NewChunker(chunkBy: string, kwargs: map<string, int>): (r: Result<Chunker>)
    ensures r.Ok? <==> chunkBy == "time" || chunkBy == "length"
    ensures r.Err? ==> r.error == InvalidChunkBy
    ensures r.Ok? ==> r.value.chunkBy == (if chunkBy == "length" then Length else Time)
    ensures r.Ok? ==>
      if "expected_threshold" in kwargs then r.value.expectedThreshold == kwargs["expected_threshold"]
      else r.value.expectedThreshold == (if chunkBy == "length" then 225 else 60)
    ensures r.Ok? ==>
      if "min_tolerable_threshold" in kwargs then r.value.minTolerableThreshold == kwargs["min_tolerable_threshold"]
      else r.value.minTolerableThreshold == (if chunkBy == "length" then 150 else 45)
  {
    if chunkBy == "length" || chunkBy == "time" then
      var s := if chunkBy == "length" then Length else Time;
      Ok(Chunker(s, Get(kwargs, "expected_threshold", DefaultExpected(s)),
                 Get(kwargs, "min_tolerable_threshold", DefaultMinTolerable(s))))
    else
      Err(InvalidChunkBy)
  }
}
