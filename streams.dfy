/** A child process as the adapters see it: the chunks it wrote to its standard output and error
    streams, how it closed, and how a promise around it settles. */
module Streams {

  newtype byte = x: int | 0 <= x < 256

  /** The `code` argument of a child's 'close' event: an exit code, or null when a signal ended it. */
  datatype ExitStatus = Exited(code: int) | Signalled

  /** The close handlers test `code !== 0`: only an exit code of exactly 0 is success. */
  predicate Succeeded(status: ExitStatus): (r: bool)
    ensures r ==> !status.Signalled?
    ensures status.Exited? ==> (r <==> status.code == 0)
  {
    status == Exited(0)
  }

  /** Everything a child process delivers to its 'data' and 'close' listeners, in delivery order:
      every 'data' event precedes 'close'. */
  datatype ProcessRun = ProcessRun(stdout: seq<seq<byte>>, stderr: seq<seq<byte>>, status: ExitStatus)

  /** How a promise settles. */
  datatype Settlement<T> = Resolved(value: T) | Rejected(reason: string)

  /** The in-order concatenation of a stream's chunks. */
  function Concat<T>(chunks: seq<seq<T>>): seq<T> {
    if chunks == [] then [] else Concat(chunks[..|chunks| - 1]) + chunks[|chunks| - 1]
  }

  /** The bytes of two consecutive runs of chunks are the first run's bytes followed by the
      second's. */
  lemma {:induction false} ConcatAppend<T>(a: seq<seq<T>>, b: seq<seq<T>>)
    ensures Concat(a + b) == Concat(a) + Concat(b)
    decreases |b|
  {
    if b == [] {
      assert a + b == a;
    } else {
      var b' := b[..|b| - 1];
      assert (a + b)[..|a + b| - 1] == a + b';
      ConcatAppend(a, b');
    }
  }

  /** The sum of the chunks' lengths. */
  function TotalLength<T>(chunks: seq<seq<T>>): nat {
    if chunks == [] then 0 else TotalLength(chunks[..|chunks| - 1]) + |chunks[|chunks| - 1]|
  }

  /** Every byte of the concatenation comes from one chunk, so its length is the sum of the chunks'. */
  lemma {:induction false} ConcatLength<T>(chunks: seq<seq<T>>)
    ensures |Concat(chunks)| == TotalLength(chunks)
  {
    if chunks != [] {
      ConcatLength(chunks[..|chunks| - 1]);
    }
  }

  /** A 'data' listener that appends every chunk to an accumulator that starts empty. */
  method Accumulate<T>(chunks: seq<seq<T>>) returns (acc: seq<T>)
    ensures acc == Concat(chunks)
    ensures |acc| == TotalLength(chunks)
  {
    acc := [];
    for i := 0 to |chunks|
      invariant acc == Concat(chunks[..i])
    {
      assert chunks[..i + 1][..i] == chunks[..i];
      acc := acc + chunks[i];
    }
    assert chunks[..|chunks|] == chunks;
    ConcatLength(chunks);
  }

  /** Each chunk decoded to text on its own, as `data.toString()` does in a listener. */
  function DecodeEach(chunks: seq<seq<byte>>, toText: seq<byte> -> string): (r: seq<string>)
    ensures |r| == |chunks|
    ensures forall i :: 0 <= i < |chunks| ==> r[i] == toText(chunks[i])
  {
    seq(|chunks|, i requires 0 <= i < |chunks| => toText(chunks[i]))
  }
}
