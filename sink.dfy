/**
 * The frame sink the agent writes into: a bincode writer over the write half
 * of an in-memory pipe whose read half is the HTTP response body. Its
 * byte layout and buffering are not modelled; what matters here is which
 * frames it accepted, in order, and that a send fails once the reading side
 * has gone away (the client disconnected). The point where that happens is
 * the sink's `limit`: the number of frames the reader takes in all, or
 * `None` when it reads to the end.
 */
module Sinks {
  import opened Wrappers
  import opened Frames

  /**
   * How many frames of `fs` a sink accepts when `sent` frames went before
   * and the reader stops after `limit` frames.
   */
  function Fit(fs: seq<Frame>, sent: nat, limit: Option<nat>): (n: nat)
    ensures n <= |fs|
    ensures limit.None? ==> n == |fs|
    ensures limit.Some? ==> n == |fs| || sent + n == limit.value || (n == 0 && sent >= limit.value)
  {
    match limit
    case None => |fs|
    case Some(l) =>
      if sent >= l then 0
      else if l - sent < |fs| then l - sent
      else |fs|
  }

  /**
   * Sending `a` then `b` delivers what fits of `a` and, only when all of `a`
   * fitted, all of `a` followed by what then fits of `b`.
   */
  lemma FitAppend(a: seq<Frame>, b: seq<Frame>, sent: nat, limit: Option<nat>)
    ensures var m := Fit(a, sent, limit); var n := Fit(a + b, sent, limit);
      && (m < |a| ==> n == m && (a + b)[..n] == a[..m])
      && (m == |a| ==> n == |a| + Fit(b, sent + |a|, limit) && (a + b)[..n] == a + b[..Fit(b, sent + |a|, limit)])
  {
    var m := Fit(a, sent, limit);
    if m < |a| {
      assert (a + b)[..m] == a[..m];
    } else {
      var k := Fit(b, sent + |a|, limit);
      assert (a + b)[..|a| + k] == a + b[..k];
    }
  }

  class FrameSink {
    /** Every frame the reader has accepted so far, in order. */
    var sent: seq<Frame>
    /** Frames the reader takes before it goes away; `None`: it never does. */
    const limit: Option<nat>

    constructor (limit: Option<nat>)
      ensures sent == [] && this.limit == limit
    {
      sent := [];
      this.limit := limit;
    }

    predicate Open()
      reads this
    {
      limit.None? || |sent| < limit.value
    }

    /** `sink.send(frame)`: delivers the frame, or fails when the reader is gone. */
    method Send(f: Frame) returns (ok: bool)
      modifies this
      ensures ok == old(Open())
      ensures sent == if ok then old(sent) + [f] else old(sent)
    {
      ok := Open();
      if ok {
        sent := sent + [f];
      }
    }

    /** `sink.send_all(stream)`: sends the frames one by one and stops at the first failure. */
    method SendAll(fs: seq<Frame>) returns (ok: bool)
      modifies this
      ensures sent == old(sent) + fs[..Fit(fs, |old(sent)|, limit)]
      ensures ok <==> Fit(fs, |old(sent)|, limit) == |fs|
    {
      var i := 0;
      while i < |fs|
        invariant i <= Fit(fs, |old(sent)|, limit)
        invariant sent == old(sent) + fs[..i]
      {
        ok := Send(fs[i]);
        if !ok {
          return;
        }
        assert fs[..i + 1] == fs[..i] + [fs[i]];
        i := i + 1;
      }
      assert fs[..i] == fs;
      ok := true;
    }
  }
}
