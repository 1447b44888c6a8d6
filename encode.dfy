/**
 * `encode` (dbd-agent/src/encode.rs): a task pulls items from a stream of
 * frames-or-errors and sends each frame into the sink, stopping at the first
 * error item or the first failed send. It adds nothing of its own: the sink
 * gets the stream's leading run of frames, cut short only when the reader
 * goes away.
 */
module Encode {
  import opened Wrappers
  import opened Frames
  import opened Sinks

  /** An `io::Error` carried by the input stream. */
  datatype IoError = IoError(message: string)

  datatype EncodeError = StreamError(cause: IoError) | SinkError

  /**
   * The frames before the first error item: every one of them is an `Ok` item
   * at its own position, and the item just after them, if any, is an error.
   */
  function OkPrefix(items: seq<Result<Frame, IoError>>): (fs: seq<Frame>)
    ensures |fs| <= |items|
    ensures forall i :: 0 <= i < |fs| ==> items[i] == Success(fs[i])
    ensures |fs| < |items| ==> items[|fs|].Failure?
  {
    if items == [] || items[0].Failure? then []
    else [items[0].value] + OkPrefix(items[1..])
  }

  /** What the forwarding task ends with once `delivered` frames of the Ok-prefix were accepted. */
  function EncodeResult(items: seq<Result<Frame, IoError>>, delivered: nat): Result<(), EncodeError>
  {
    var fs := OkPrefix(items);
    if delivered < |fs| then Failure(SinkError)
    else if |fs| < |items| then Failure(StreamError(items[|fs|].error))
    else Success(())
  }

  /** The body of the task `encode` spawns. */
  method Encode(items: seq<Result<Frame, IoError>>, sink: FrameSink) returns (r: Result<(), EncodeError>)
    modifies sink
    ensures var n := Fit(OkPrefix(items), |old(sink.sent)|, sink.limit);
      && sink.sent == old(sink.sent) + OkPrefix(items)[..n]
      && r == EncodeResult(items, n)
  {
    ghost var fs := OkPrefix(items);
    var i := 0;
    while i < |items|
      invariant i <= |fs| && i <= Fit(fs, |old(sink.sent)|, sink.limit)
      invariant sink.sent == old(sink.sent) + fs[..i]
    {
      match items[i]
      case Failure(e) =>
        return Failure(StreamError(e));
      case Success(f) =>
        var ok := sink.Send(f);
        if !ok {
          return Failure(SinkError);
        }
        assert fs[..i + 1] == fs[..i] + [f];
        i := i + 1;
    }
    assert fs[..i] == fs;
    r := Success(());
  }
}
