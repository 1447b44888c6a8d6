/**
 * The process layer the dump commands are built on: a command builder whose
 * argument list and environment the code extends in place, what the
 * operating system does with a spawned command, and the child handle a
 * builder returns. Processes never run here: a `Launch` says what a
 * command would write and how it would end.
 */
module Process {
  import opened Wrappers
  import opened Frames

  /** A Rust `u16`, the type of the configured port. */
  type Port = x: int | 0 <= x < 65536

  /** The two database engines a configured database can be. */
  datatype Engine = Postgres | MySql

  /** Program, arguments and environment overrides a child was started with. */
  datatype Invocation = Invocation(program: string, args: seq<string>, env: map<string, string>)

  /** What spawning a command leads to: it fails to start, or it writes these bytes and ends. */
  datatype Launch = LaunchFailed | Launched(stdout: Bytes, stderr: Bytes, exit: Option<Int32>)

  /** The bytes a child's standard output carries: its own, or gzip's compression of `input`. */
  datatype Output = Raw(bytes: Bytes) | Gzip(input: Bytes)

  /** A started child: how it was invoked, its two output pipes and its exit code (`None`: killed by a signal). */
  datatype Child = Child(invocation: Invocation, stdout: Output, stderr: Bytes, exit: Option<Int32>)

  /** A command builder (`Command`): its `args` and `env` calls extend it in place. */
  class Command {
    const program: string
    var args: seq<string>
    var env: map<string, string>

    constructor (program: string)
      ensures this.program == program && args == [] && env == map[]
    {
      this.program := program;
      args := [];
      env := map[];
    }

    method Args(more: seq<string>)
      modifies this
      ensures args == old(args) + more && env == old(env)
    {
      args := args + more;
    }

    method Env(key: string, value: string)
      modifies this
      ensures env == old(env)[key := value] && args == old(args)
    {
      env := env[key := value];
    }

    function AsInvocation(): Invocation
      reads this
    {
      Invocation(program, args, env)
    }
  }

  /** `spawn()` with both output pipes captured: a child, or `None` when the command could not start. */
  method Spawn(cmd: Command, launch: Launch) returns (child: Option<Child>)
    ensures launch.LaunchFailed? <==> child.None?
    ensures child.Some? ==> child.value == Child(cmd.AsInvocation(), Raw(launch.stdout), launch.stderr, launch.exit)
  {
    if launch.LaunchFailed? {
      child := None;
    } else {
      child := Some(Child(cmd.AsInvocation(), Raw(launch.stdout), launch.stderr, launch.exit));
    }
  }

  /** The argument pairs `flag v` for each value, in order. */
  function FlagPairs(flag: string, values: seq<string>): seq<string>
  {
    if values == [] then []
    else FlagPairs(flag, values[..|values| - 1]) + [flag, values[|values| - 1]]
  }

  /** Table names qualified by their database, `db.table`. */
  function Qualified(dbname: string, tables: seq<string>): (names: seq<string>)
    ensures |names| == |tables|
    ensures forall i :: 0 <= i < |tables| ==> names[i] == dbname + "." + tables[i]
  {
    seq(|tables|, i requires 0 <= i < |tables| => dbname + "." + tables[i])
  }

  /** The flag list holds two items per value: the flag, then the value, in the values' order. */
  lemma {:induction false} FlagPairsAt(flag: string, values: seq<string>)
    ensures |FlagPairs(flag, values)| == 2 * |values|
    ensures forall i :: 0 <= i < |values| ==>
      FlagPairs(flag, values)[2 * i] == flag && FlagPairs(flag, values)[2 * i + 1] == values[i]
    decreases |values|
  {
    if values != [] {
      var init := values[..|values| - 1];
      FlagPairsAt(flag, init);
      forall i | 0 <= i < |values|
        ensures FlagPairs(flag, values)[2 * i] == flag && FlagPairs(flag, values)[2 * i + 1] == values[i]
      {
        if i < |init| {
          assert values[i] == init[i];
        }
      }
    }
  }

  /** Extending the builder with one pair per value, in a loop, adds exactly `FlagPairs`. */
  method AddFlagPairs(cmd: Command, flag: string, values: seq<string>)
    modifies cmd
    ensures cmd.args == old(cmd.args) + FlagPairs(flag, values)
    ensures cmd.env == old(cmd.env)
  {
    for i := 0 to |values|
      invariant cmd.args == old(cmd.args) + FlagPairs(flag, values[..i])
      invariant cmd.env == old(cmd.env)
    {
      cmd.Args([flag, values[i]]);
      assert values[..i + 1][..i] == values[..i];
    }
    assert values[..|values|] == values;
  }
}
