/**
 * `child_stream` (dbd-agent/src/main.rs:113-121): the chunks a child writes to
 * standard output become `Stdout` frames, those it writes to standard error
 * become `Stderr` frames, and the two tagged streams are merged. The merge
 * takes chunks in whichever order they become ready; here that order is a
 * parameter, a schedule of picks (`true`: standard output next), so that every
 * order the merge may produce is one value of the schedule
 * (ChildStreamComplete) and every value keeps each channel's own order
 * (ChildStreamChannels).
 */
module Streams {
  import opened Frames

  /**
   * The merged frames of one child. A pick is obeyed when the chosen channel
   * still has chunks; once one channel is drained the other follows in order,
   * and once the schedule runs out standard output goes first.
   */
  function ChildStream(out: seq<Bytes>, err: seq<Bytes>, pick: seq<bool>): seq<Frame>
    decreases |out| + |err|
  {
    var rest := if pick == [] then [] else pick[1..];
    if out == [] && err == [] then []
    else if err == [] || (out != [] && (pick == [] || pick[0])) then
      [Stdout(out[0])] + ChildStream(out[1..], err, rest)
    else
      [Stderr(err[0])] + ChildStream(out, err[1..], rest)
  }

  /** The schedule that reproduces a given order of output frames. */
  function Schedule(fs: seq<Frame>): (pick: seq<bool>)
    ensures |pick| == |fs|
  {
    if fs == [] then [] else [fs[0].Stdout?] + Schedule(fs[1..])
  }

  /**
   * Whatever the schedule, the merge holds every chunk once, no `Status`, the
   * standard output chunks in their order and the standard error chunks in
   * theirs.
   */
  lemma {:induction false} ChildStreamChannels(out: seq<Bytes>, err: seq<Bytes>, pick: seq<bool>)
    ensures var fs := ChildStream(out, err, pick);
      && |fs| == |out| + |err|
      && NoStatus(fs)
      && Stdouts(fs) == out
      && Stderrs(fs) == err
    decreases |out| + |err|
  {
    var rest := if pick == [] then [] else pick[1..];
    var fs := ChildStream(out, err, pick);
    if out == [] && err == [] {
    } else if err == [] || (out != [] && (pick == [] || pick[0])) {
      ChildStreamChannels(out[1..], err, rest);
      var tail := ChildStream(out[1..], err, rest);
      assert fs == [Stdout(out[0])] + tail;
      assert fs[1..] == tail;
      assert out == [out[0]] + out[1..];
      forall i | 0 <= i < |fs| ensures !fs[i].Status? {
        if i > 0 { assert fs[i] == tail[i - 1]; }
      }
    } else {
      ChildStreamChannels(out, err[1..], rest);
      var tail := ChildStream(out, err[1..], rest);
      assert fs == [Stderr(err[0])] + tail;
      assert fs[1..] == tail;
      assert err == [err[0]] + err[1..];
      forall i | 0 <= i < |fs| ensures !fs[i].Status? {
        if i > 0 { assert fs[i] == tail[i - 1]; }
      }
    }
  }

  /**
   * Every sequence of output frames is what the merge produces from its own
   * channels under some schedule: the merge may interleave the two channels
   * in any way.
   */
  lemma {:induction false} ChildStreamComplete(fs: seq<Frame>)
    requires NoStatus(fs)
    ensures ChildStream(Stdouts(fs), Stderrs(fs), Schedule(fs)) == fs
  {
    if fs != [] {
      assert NoStatus(fs[1..]) by {
        forall i | 0 <= i < |fs[1..]| ensures !fs[1..][i].Status? {
          assert fs[1..][i] == fs[i + 1];
        }
      }
      ChildStreamComplete(fs[1..]);
      assert !fs[0].Status?;
      assert Schedule(fs)[1..] == Schedule(fs[1..]);
      assert fs == [fs[0]] + fs[1..];
    }
  }
}
