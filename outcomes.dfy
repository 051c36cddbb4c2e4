/** The values every parser works on: the input stream, Python-style slicing of it,
    and the outcome of running a parser at an index. */
module Outcomes {

  /** The input of a parse: a Python `str`, a sequence of characters. */
  type Stream = seq<char>

  function Min(a: nat, b: nat): nat { if a <= b then a else b }

  function Max(a: nat, b: nat): nat { if a <= b then b else a }

  /** `stream[lo:hi]` for non-negative bounds, as Python evaluates it: both bounds are
      clamped to the length of the stream, and a slice whose start lies past its end
      is empty. Slicing never fails, whatever the bounds. */
  function Slice(s: Stream, lo: nat, hi: nat): (r: Stream)
    ensures |r| <= |s|
    ensures lo <= hi ==> |r| <= hi - lo
    ensures |s| <= lo ==> r == []
    ensures lo <= hi <= |s| ==> r == s[lo..hi]
    ensures hi <= lo ==> r == []
  {
    var a := Min(lo, |s|);
    var b := Min(hi, |s|);
    if a <= b then s[a..b] else []
  }

  /** Where a failure is reported. The source passes an index for most failures, but
      the literal matcher passes the whole stream instead (see `Parsers.StringAsWritten`). */
  datatype Location = Index(at: nat) | WholeStream(stream: Stream)

  datatype Option<T> = None | Some(value: T)

  /** What one run of a parser produces: the direct-style form of the two continuations
      `on_success(new_index, result)` and `on_failure(location, expected)`. */
  datatype Outcome<V> =
    | Success(next: nat, value: V)
    | Failure(where: Location, expected: string)
}
