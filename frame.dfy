/**
 * The wire unit the agent streams to the client (dbd-agent/src/frame.rs): a
 * chunk of the dump's standard output, a chunk of its standard error, or the
 * final status, whose code is absent when the process was ended by a signal.
 * The datatype itself has exactly these three shapes and fixes no order;
 * the predicates below say what a complete stream looks like.
 */
module Frames {
  import opened Wrappers

  type Byte = x: int | 0 <= x < 256

  type Bytes = seq<Byte>

  /** A Rust `i32`. */
  type Int32 = x: int | -0x8000_0000 <= x < 0x8000_0000

  datatype Frame =
    | Stdout(data: Bytes)
    | Stderr(data: Bytes)
    | Status(code: Option<Int32>)

  /** No frame of `fs` is a `Status`. */
  predicate NoStatus(fs: seq<Frame>)
  {
    forall i :: 0 <= i < |fs| ==> !fs[i].Status?
  }

  /** A complete stream: output frames, then exactly one `Status`, which is last. */
  predicate Terminated(fs: seq<Frame>)
  {
    |fs| > 0 && fs[|fs| - 1].Status? && NoStatus(fs[..|fs| - 1])
  }

  /** Number of `Status` frames in `fs`. */
  function StatusCount(fs: seq<Frame>): nat
  {
    if fs == [] then 0 else (if fs[0].Status? then 1 else 0) + StatusCount(fs[1..])
  }

  /** Payloads of the `Stdout` frames, in stream order. */
  function Stdouts(fs: seq<Frame>): seq<Bytes>
  {
    if fs == [] then []
    else if fs[0].Stdout? then [fs[0].data] + Stdouts(fs[1..])
    else Stdouts(fs[1..])
  }

  /** Payloads of the `Stderr` frames, in stream order. */
  function Stderrs(fs: seq<Frame>): seq<Bytes>
  {
    if fs == [] then []
    else if fs[0].Stderr? then [fs[0].data] + Stderrs(fs[1..])
    else Stderrs(fs[1..])
  }

  /** The chunks glued into one byte string. */
  function Concat(chunks: seq<Bytes>): Bytes
  {
    if chunks == [] then [] else chunks[0] + Concat(chunks[1..])
  }

  lemma {:induction false} StatusCountAppend(a: seq<Frame>, b: seq<Frame>)
    ensures StatusCount(a + b) == StatusCount(a) + StatusCount(b)
  {
    if a == [] {
      assert a + b == b;
    } else {
      StatusCountAppend(a[1..], b);
      assert (a + b)[1..] == a[1..] + b;
    }
  }

  lemma {:induction false} NoStatusCount(fs: seq<Frame>)
    ensures NoStatus(fs) <==> StatusCount(fs) == 0
  {
    if fs != [] {
      NoStatusCount(fs[1..]);
      if NoStatus(fs[1..]) && !fs[0].Status? {
        forall i | 0 <= i < |fs| ensures !fs[i].Status? {
          if i > 0 { assert fs[i] == fs[1..][i - 1]; }
        }
      }
      if NoStatus(fs) {
        forall i | 0 <= i < |fs[1..]| ensures !fs[1..][i].Status? {
          assert fs[1..][i] == fs[i + 1];
        }
      }
    }
  }

  /** A complete stream is exactly one whose single `Status` frame is its last. */
  lemma TerminatedIffOneStatusLast(fs: seq<Frame>)
    ensures Terminated(fs) <==> (|fs| > 0 && fs[|fs| - 1].Status? && StatusCount(fs) == 1)
  {
    if |fs| > 0 {
      var n := |fs| - 1;
      assert fs == fs[..n] + [fs[n]];
      StatusCountAppend(fs[..n], [fs[n]]);
      NoStatusCount(fs[..n]);
      assert StatusCount([fs[n]]) == (if fs[n].Status? then 1 else 0) + StatusCount([fs[n]][1..]);
      assert [fs[n]][1..] == [];
    }
  }

  lemma {:induction false} StdoutsAppend(a: seq<Frame>, b: seq<Frame>)
    ensures Stdouts(a + b) == Stdouts(a) + Stdouts(b)
  {
    if a == [] {
      assert a + b == b;
    } else {
      StdoutsAppend(a[1..], b);
      assert (a + b)[1..] == a[1..] + b;
    }
  }

  lemma {:induction false} StderrsAppend(a: seq<Frame>, b: seq<Frame>)
    ensures Stderrs(a + b) == Stderrs(a) + Stderrs(b)
  {
    if a == [] {
      assert a + b == b;
    } else {
      StderrsAppend(a[1..], b);
      assert (a + b)[0] == a[0] && (a + b)[1..] == a[1..] + b;
    }
  }

  lemma {:induction false} ConcatAppend(a: seq<Bytes>, b: seq<Bytes>)
    ensures Concat(a + b) == Concat(a) + Concat(b)
  {
    if a == [] {
      assert a + b == b;
    } else {
      ConcatAppend(a[1..], b);
      assert (a + b)[1..] == a[1..] + b;
    }
  }

  lemma {:induction false} NoStatusAppend(a: seq<Frame>, b: seq<Frame>)
    requires NoStatus(a) && NoStatus(b)
    ensures NoStatus(a + b)
  {
    forall i | 0 <= i < |a + b| ensures !(a + b)[i].Status? {
      if i >= |a| { assert (a + b)[i] == b[i - |a|]; }
    }
  }
}
